/** `getUserById`: the session-cache read behind the profile endpoint. */
module UserService {
  import opened Wrappers
  import opened Sessions
  import Auth
  import Tokens
  import Http

  /** The reply `{ success, user }` or `{ success, message }` and its status. */
  datatype UserReply = UserReply(status: int, success: bool, message: Option<string>, user: Option<Snapshot>)

  /**
   * `getUserById(id, res)`: a live session for exactly `id` gives 200 with
   * the parsed snapshot; anything else gives 404 "User not found". The cache
   * is only read.
   */
  function GetUserById(entries: map<string, string>, id: string, parse: Parser): (r: UserReply)
    ensures r.status == 200 <==> Session(entries, id).Some?
    ensures r.status == 200 ==> r.success && r.user == Some(parse(Session(entries, id).value)) && r.message.None?
    ensures r.status != 200 ==> r == UserReply(404, false, Some(Auth.UserNotFound), None)
  {
    match Session(entries, id)
    case Some(text) => UserReply(200, true, None, Some(parse(text)))
    case None => UserReply(404, false, Some(Auth.UserNotFound), None)
  }

  /** The reply depends on the cache only through the entry keyed by `id`. */
  lemma LookupKeyedById(entries: map<string, string>, other: map<string, string>, id: string, parse: Parser)
    requires Session(entries, id) == Session(other, id)
    ensures GetUserById(entries, id, parse) == GetUserById(other, id, parse)
  {
  }

  /**
   * The profile lookup and the authentication gate agree: for a token that
   * verifies to `id`, the gate proceeds exactly when the lookup finds the
   * user, and both carry the same snapshot.
   */
  lemma GateAgreesWithLookup(token: string, secret: string, verify: Tokens.Verifier,
                             entries: map<string, string>, parse: Parser, id: string)
    requires token != ""
    requires Auth.DecodedId(token, secret, verify) == Some(id)
    ensures Auth.Authenticate(Some(token), secret, verify, entries, parse).Proceed?
        <==> GetUserById(entries, id, parse).status == 200
    ensures GetUserById(entries, id, parse).status == 200 ==>
      Some(Auth.Authenticate(Some(token), secret, verify, entries, parse).user) == GetUserById(entries, id, parse).user
    ensures GetUserById(entries, id, parse).status == 404 <==>
      Auth.Authenticate(Some(token), secret, verify, entries, parse) == Auth.Reject(Http.AppError(Auth.UserNotFound, 404))
  {
  }
}
