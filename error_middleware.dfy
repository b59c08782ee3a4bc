/**
 * `errorMiddleware`: turns the error a handler passed to `next(err)` into a
 * status and a `{ success: false, message }` body.
 */
module ErrorMiddleware {
  import opened Wrappers
  import opened JsText
  import opened Http
  import Tokens

  const DefaultMessage := "Internal Server Error"
  const JwtInvalidMessage := "Json Web Token is invalid, try again"
  const JwtExpiredMessage := "Json Web Token is expired, try again"
  const DuplicateKeyCode := 11000

  /**
   * The properties of an error object the middleware reads; a missing
   * property is `None`. `keyValue` holds the keys of `err.keyValue`.
   */
  datatype ErrorInfo = ErrorInfo(
    name: Option<string>,
    message: Option<string>,
    statusCode: Option<int>,
    code: Option<int>,
    path: Option<string>,
    keyValue: Option<seq<string>>)

  /**
   * What the middleware does: send a reply, or throw (`Object.keys` of a
   * missing `keyValue` raises a TypeError).
   */
  datatype Handled = Sent(reply: Reply) | Threw

  /**
   * `new ErrorHandler(message, statusCode)` as the middleware sees it: an
   * `Error` whose name is "Error" and which has no `code`, `path` or
   * `keyValue`.
   */
  function HandlerError(message: string, statusCode: int): ErrorInfo {
    ErrorInfo(Some("Error"), Some(message), Some(statusCode), None, None, None)
  }

  /** An `ErrorHandler` a route passed to `next(...)`. */
  function FromAppError(e: AppError): ErrorInfo {
    HandlerError(e.message, e.statusCode)
  }

  /** A `jsonwebtoken` error thrown through a handler. */
  function FromJwtError(e: Tokens.JwtError): ErrorInfo {
    ErrorInfo(Some(Tokens.ErrorName(e)), Some(e.message), None, None, None, None)
  }

  /** `err.statusCode || 500`. */
  function InitialStatus(err: ErrorInfo): int {
    if err.statusCode.Some? && err.statusCode.value != 0 then err.statusCode.value else 500
  }

  /** `err.message || "Internal Server Error"`. */
  function InitialMessage(err: ErrorInfo): string {
    if err.message.Some? && Truthy(err.message.value) then err.message.value else DefaultMessage
  }

  /** `${err.path}`: a missing path renders as "undefined". */
  function PathText(path: Option<string>): string {
    if path.Some? then path.value else "undefined"
  }

  function CastMessage(path: Option<string>): string {
    "Resource not found. Invalid: " + PathText(path)
  }

  function DuplicateMessage(keys: seq<string>): string {
    "Duplicate " + Join(keys, ",") + " entered"
  }

  /**
   * The rule order stated declaratively. Each matching rule replaces `err`
   * by an `ErrorHandler`, whose name and code match no later rule, so the
   * FIRST matching rule decides; with none, the error's own status and
   * message stand, with their defaults.
   */
  function Classify(err: ErrorInfo): Handled {
    if err.name == Some("CastError") then
      Sent(Reply(400, false, CastMessage(err.path)))
    else if err.code == Some(DuplicateKeyCode) then
      if err.keyValue.None? then Threw else Sent(Reply(400, false, DuplicateMessage(err.keyValue.value)))
    else if err.name == Some("JsonWebTokenError") then
      Sent(Reply(400, false, JwtInvalidMessage))
    else if err.name == Some("TokenExpiredError") then
      Sent(Reply(400, false, JwtExpiredMessage))
    else
      Sent(Reply(InitialStatus(err), false, InitialMessage(err)))
  }

  /**
   * `errorMiddleware(err, req, res, next)`, step by step: defaults first,
   * then each rule in turn overwrites `statusCode`, `message` and `err`.
   */
  method Normalize(err0: ErrorInfo) returns (h: Handled)
    ensures h == Classify(err0)
    ensures h.Sent? ==> !h.reply.success
    ensures h.Sent? ==> h.reply.status == 400 || h.reply.status == InitialStatus(err0)
  {
    var err := err0;
    var statusCode := InitialStatus(err);
    var message := InitialMessage(err);

    if err.name == Some("CastError") {
      message := CastMessage(err.path);
      statusCode := 400;
      err := HandlerError(message, statusCode);
    }

    if err.code == Some(DuplicateKeyCode) {
      if err.keyValue.None? {
        return Threw;
      }
      message := DuplicateMessage(err.keyValue.value);
      statusCode := 400;
      err := HandlerError(message, statusCode);
    }

    if err.name == Some("JsonWebTokenError") {
      message := JwtInvalidMessage;
      statusCode := 400;
      err := HandlerError(message, statusCode);
    }

    if err.name == Some("TokenExpiredError") {
      message := JwtExpiredMessage;
      statusCode := 400;
      err := HandlerError(message, statusCode);
    }

    h := Sent(Reply(statusCode, false, message));
  }

  /**
   * The reply is always a failure, and its status is the error's own
   * status, 500 or 400.
   */
  lemma ClassifyStatus(err: ErrorInfo)
    ensures Classify(err).Sent? ==> !Classify(err).reply.success
    ensures Classify(err).Sent? ==>
      var s := Classify(err).reply.status;
      s == 400 || s == 500 || Some(s) == err.statusCode
  {
  }

  /** Only a duplicate-key error without `keyValue` makes the middleware throw. */
  lemma ThrowsOnlyOnBareDuplicate(err: ErrorInfo)
    ensures Classify(err) == Threw <==>
      err.name != Some("CastError") && err.code == Some(DuplicateKeyCode) && err.keyValue.None?
  {
  }

  /**
   * An `ErrorHandler` from a route passes through with its own status and
   * message (defaults filling in a zero status or an empty message).
   */
  lemma AppErrorsPassThrough(e: AppError)
    ensures Classify(FromAppError(e))
         == Sent(Reply(if e.statusCode != 0 then e.statusCode else 500, false,
                       if e.message != "" then e.message else DefaultMessage))
  {
  }

  /** A JWT error thrown by the gate's verifier becomes 400 with the fixed message for its kind. */
  lemma JwtErrorsBecomeBadRequest(e: Tokens.JwtError)
    ensures Classify(FromJwtError(e))
         == Sent(Reply(400, false, if e.JsonWebTokenError? then JwtInvalidMessage else JwtExpiredMessage))
  {
  }

  /**
   * A CastError that also carries the duplicate-key code is still reported
   * as a CastError: the earlier rule wins.
   */
  lemma EarlierRuleWins(path: Option<string>, keys: seq<string>)
    ensures Classify(ErrorInfo(Some("CastError"), None, None, Some(DuplicateKeyCode), path, Some(keys)))
         == Sent(Reply(400, false, CastMessage(path)))
  {
  }

  /**
   * The catch-all handler registered ahead of this middleware: status
   * `err.statusCode || 500` and message `err.message || "Internal Server
   * Error"`, with no rules.
   */
  function CatchAll(err: ErrorInfo): Reply {
    Reply(InitialStatus(err), false, InitialMessage(err))
  }

  /**
   * Where no rule matches the two handlers agree; a JWT error is where they
   * part: as registered, it reaches the client as a 500 with the library's
   * own message.
   */
  lemma CatchAllComparedWithNormalize(err: ErrorInfo, e: Tokens.JwtError)
    requires err.name != Some("CastError") && err.code != Some(DuplicateKeyCode)
    requires err.name != Some("JsonWebTokenError") && err.name != Some("TokenExpiredError")
    ensures Classify(err) == Sent(CatchAll(err))
    ensures CatchAll(FromJwtError(e)).status == 500
    ensures e.message != "" ==> CatchAll(FromJwtError(e)).message == e.message
    ensures Classify(FromJwtError(e)).reply.status == 400
  {
  }
}
