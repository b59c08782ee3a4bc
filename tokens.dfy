/**
 * The claims the server signs into JSON Web Tokens, and the signing and
 * verification functions of the `jsonwebtoken` library taken as parameters.
 */
module Tokens {
  import opened Wrappers

  /** The avatar sub-document `{ public_id, url }` of a user. */
  datatype Avatar = Avatar(publicId: Option<string>, url: Option<string>)

  /**
   * The registration body `{ name, email, password, avatar }`; any field may be
   * missing from the request. It travels inside the activation token.
   */
  datatype Registration = Registration(
    name: Option<string>,
    email: Option<string>,
    password: Option<string>,
    avatar: Option<Avatar>)

  /**
   * A decoded payload: the two shapes the server signs, or a falsy value
   * that is not null or undefined (`""`, `0`, `false`).
   */
  datatype Payload =
    | IdPayload(id: string)                                              // `{ id: _id }`
    | ActivationPayload(user: Registration, activationCode: string)      // `{ user, activationCode }`
    | FalsyPayload

  /** The options argument of `jwt.sign`; only `expiresIn` is ever given. */
  datatype SignOptions = NoExpiry | ExpiresIn(span: string)

  /** What `jwt.verify` throws, with the library's message. */
  datatype JwtError = JsonWebTokenError(message: string) | TokenExpiredError(message: string)

  /** The `name` property of a thrown JWT error. */
  function ErrorName(e: JwtError): string {
    match e
    case JsonWebTokenError(_) => "JsonWebTokenError"
    case TokenExpiredError(_) => "TokenExpiredError"
  }

  /** `jwt.sign(payload, secret, options)`. */
  type Signer = (Payload, string, SignOptions) -> string

  /**
   * `jwt.verify(token, secret)`: the decoded payload, `Success(None)` for a
   * null or undefined result, or the error it throws.
   */
  type Verifier = (string, string) -> Result<Option<Payload>, JwtError>

  /** A decode result that `if (!decoded)` rejects: null, undefined or another falsy value. */
  predicate FalsyDecode(d: Option<Payload>) {
    d.None? || d.value.FalsyPayload?
  }

  /**
   * What the model assumes of the library when it relates signing to
   * verifying: a signed token is a non-empty string; verified with the secret
   * it was signed with (within its lifetime) it gives back exactly its
   * payload; verified with any other secret it throws.
   */
  ghost predicate JwtLaws(sign: Signer, verify: Verifier) {
    (forall p, s, o :: sign(p, s, o) != "") &&
    (forall p, s, o :: verify(sign(p, s, o), s) == Success(Some(p))) &&
    (forall p, s, o, s' :: s' != s ==> verify(sign(p, s, o), s').Failure?)
  }

  /** `process.env[key] || ""`: an unset variable reads as the empty string. */
  function EnvOr(env: map<string, string>, key: string): string {
    if key in env then env[key] else ""
  }
}
