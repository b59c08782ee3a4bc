/**
 * The user controller: registration (duplicate check and activation token),
 * activation (input, signature, code, duplicate, then create) and login,
 * over the user collection keyed by e-mail.
 */
module UserController {
  import opened Wrappers
  import opened JsText
  import opened Tokens
  import opened Http
  import opened UserModel

  const EmailExists := "Email already exists"
  const MailFailed := "Error sending activation email"
  const ActivationInputMissing := "Activation token and code are required"
  const ActivationTokenInvalid := "Invalid or expired activation token"
  const ActivationCodeInvalid := "Invalid activation code"
  const UserExists := "User already exists"
  const UserActivated := "User activated successfully"
  const ActivationFailed := "Error activating user"
  const CredentialsMissing := "Please enter email and password"
  const CredentialsInvalid := "Invalid email or password"
  const LoginSucceeded := "Login successful"
  const ActivationLifetime := "5m"

  /** `userModel.findOne({ email })`: a missing e-mail matches no stored user. */
  function FindByEmail(users: map<string, User>, email: Option<string>): Option<User> {
    if email.Some? && email.value in users then Some(users[email.value]) else None
  }

  /** The fields `userModel.create({ name, email, password, avatar })` is given. */
  function FieldsOf(body: Registration): UserFields {
    UserFields(body.name, body.email, body.password, body.avatar, None, None)
  }

  // ---------------------------------------------------------------------------
  // createActivationToken
  // ---------------------------------------------------------------------------

  /** `{ token, activationCode }`. */
  datatype ActivationToken = ActivationToken(token: string, activationCode: string)

  /**
   * `createActivationToken(user)`, where `draw` stands for
   * `Math.floor(Math.random() * 9000)`: the code is `1000 + draw` in decimal,
   * so always four digits without a leading zero, and the token signs the
   * registration with that code under the activation secret for five
   * minutes.
   */
  function CreateActivationToken(user: Registration, draw: nat, sign: Signer, secret: string): (t: ActivationToken)
    requires draw < 9000
    ensures |t.activationCode| == 4 && AllDigits(t.activationCode) && t.activationCode[0] != '0'
    ensures DecimalValue(t.activationCode) == 1000 + draw
    ensures 1000 <= DecimalValue(t.activationCode) <= 9999
    ensures t.token == sign(ActivationPayload(user, t.activationCode), secret, ExpiresIn(ActivationLifetime))
  {
    var n := 1000 + draw;
    DecimalRoundTrip(n);
    assert Pow10(4) == 10000 && Pow10(3) == 1000;
    DecimalLength(n, 4);
    var code := DecimalString(n);
    ActivationToken(sign(ActivationPayload(user, code), secret, ExpiresIn(ActivationLifetime)), code)
  }

  // ---------------------------------------------------------------------------
  // The registration notice
  // ---------------------------------------------------------------------------

  /** `${user.email}`: a missing address renders as "undefined". */
  function EmailText(email: Option<string>): string {
    if email.Some? then email.value else "undefined"
  }

  /**
   * The 201 message as the source writes it: `$(user.email)` inside the
   * template literal is plain text, not a substitution, so the address never
   * appears.
   */
  function NoticeAsWritten(email: Option<string>): string {
    "Please check your email : $(user.email) for activation link"
  }

  /** The message with the address substituted, as evidently intended. */
  function ActivationNotice(email: Option<string>): string {
    "Please check your email : " + EmailText(email) + " for activation link"
  }

  /** As written, every registrant gets the same notice, whatever the address. */
  lemma NoticeAsWrittenIgnoresAddress(a: Option<string>, b: Option<string>)
    ensures NoticeAsWritten(a) == NoticeAsWritten(b)
  {
  }

  /** The intended notice names the address: different addresses give different notices. */
  lemma ActivationNoticeNamesAddress(a: string, b: string)
    requires ActivationNotice(Some(a)) == ActivationNotice(Some(b))
    ensures a == b
  {
    var prefix := "Please check your email : ";
    var suffix := " for activation link";
    var na := ActivationNotice(Some(a));
    assert |a| == |b|;
    assert a == na[|prefix|..|prefix| + |a|];
    assert b == ActivationNotice(Some(b))[|prefix|..|prefix| + |b|];
  }

  // ---------------------------------------------------------------------------
  // Outcomes
  // ---------------------------------------------------------------------------

  /** `registerUser`: `next(error)`, or the 201 reply with the token, the code going out by mail. */
  datatype RegisterOutcome =
    | RegisterRejected(error: AppError)
    | ActivationSent(reply: Reply, activationToken: string, mailedCode: string)

  /** `activateUser`: the reply, and the user it created, if any. */
  datatype ActivateOutcome = ActivateOutcome(reply: Reply, created: Option<User>)

  /** `loginUser`: `next(error)`, or the 200 reply with the access token and the user. */
  datatype LoginOutcome =
    | LoginRejected(error: AppError)
    | LoggedIn(reply: Reply, accessToken: string, user: User)

  function Refused(message: string): ActivateOutcome {
    ActivateOutcome(Reply(400, false, message), None)
  }

  function Crashed(): ActivateOutcome {
    ActivateOutcome(Reply(500, false, ActivationFailed), None)
  }

  /**
   * `registerUser` as a function of the store: a known address is refused
   * before any token exists; otherwise the token is created and the reply
   * depends on whether the activation mail went out.
   */
  function RegisterResult(users: map<string, User>, body: Registration, draw: nat, sign: Signer,
                          env: map<string, string>, mailSent: bool): RegisterOutcome
    requires draw < 9000
  {
    if FindByEmail(users, body.email).Some? then
      RegisterRejected(AppError(EmailExists, 400))
    else
      var t := CreateActivationToken(body, draw, sign, EnvOr(env, "ACTIVATION_SECRET"));
      if !mailSent then RegisterRejected(AppError(MailFailed, 500))
      else ActivationSent(Reply(201, true, NoticeAsWritten(body.email)), t.token, t.activationCode)
  }

  /**
   * `activateUser` as a function of the store: missing input, then the
   * signature, then the code, then the duplicate check, then creation with
   * the schema's validation and the pre-save hash. Reading `activationCode`
   * off a null or undefined decode result throws, and that and a failed
   * validation both end in the handler's catch-all 500; any other payload
   * without the code (a falsy value, a session payload) fails the code check.
   */
  function ActivateResult(users: map<string, User>, token: Option<string>, code: Option<string>, secret: string,
                          verify: Verifier, newId: string, hash: string -> string): ActivateOutcome
  {
    if !PresentString(token) || !PresentString(code) then
      Refused(ActivationInputMissing)
    else
      match verify(token.value, secret)
      case Failure(_) => Refused(ActivationTokenInvalid)
      case Success(None) => Crashed()
      case Success(Some(payload)) =>
        if !payload.ActivationPayload? || payload.activationCode != code.value then
          Refused(ActivationCodeInvalid)
        else if FindByEmail(users, payload.user.email).Some? then
          Refused(UserExists)
        else
          match NewUser(newId, FieldsOf(payload.user))
          case Failure(_) => Crashed()
          case Success(u) =>
            ActivateOutcome(Reply(201, true, UserActivated), Some(u.(password := hash(u.password))))
  }

  /**
   * `loginUser` as a function of the store: missing credentials give 400; an
   * unknown address and a wrong password give the same 401; otherwise 200
   * with an access token for the stored user.
   */
  function LoginResult(users: map<string, User>, email: Option<string>, password: Option<string>,
                       compare: (string, string) -> bool, sign: Signer, env: map<string, string>): LoginOutcome
  {
    if !PresentString(email) || !PresentString(password) then
      LoginRejected(AppError(CredentialsMissing, 400))
    else
      match FindByEmail(users, email)
      case None => LoginRejected(AppError(CredentialsInvalid, 401))
      case Some(u) =>
        if !compare(password.value, u.password) then LoginRejected(AppError(CredentialsInvalid, 401))
        else LoggedIn(Reply(200, true, LoginSucceeded), SignAccessToken(u, sign, env), u)
  }

  // ---------------------------------------------------------------------------
  // The user collection
  // ---------------------------------------------------------------------------

  /** Every stored user is filed under its own address (the unique e-mail index). */
  ghost predicate FiledByEmail(users: map<string, User>) {
    forall e :: e in users ==> users[e].email == e
  }

  /** The user collection, keyed by e-mail. */
  class UserStore {
    var users: map<string, User>

    ghost predicate Valid()
      reads this
    {
      FiledByEmail(users)
    }

    constructor (users: map<string, User>)
      requires FiledByEmail(users)
      ensures Valid() && this.users == users
    {
      this.users := users;
    }

    /**
     * `registerUser`. The store is only read. A known address is refused
     * with 400 whatever the draw, the signer or the mail; otherwise the
     * mailed code is a four-digit number and the token signs the
     * registration with that code.
     */
    method RegisterUser(body: Registration, draw: nat, sign: Signer, env: map<string, string>, mailSent: bool)
      returns (r: RegisterOutcome)
      requires draw < 9000
      ensures r == RegisterResult(users, body, draw, sign, env, mailSent)
      ensures FindByEmail(users, body.email).Some? <==> r == RegisterRejected(AppError(EmailExists, 400))
      ensures r.ActivationSent? <==> FindByEmail(users, body.email).None? && mailSent
      ensures r.ActivationSent? ==>
        r.reply == Reply(201, true, NoticeAsWritten(body.email))
        && |r.mailedCode| == 4 && AllDigits(r.mailedCode) && 1000 <= DecimalValue(r.mailedCode) <= 9999
        && r.activationToken == sign(ActivationPayload(body, r.mailedCode), EnvOr(env, "ACTIVATION_SECRET"),
                                     ExpiresIn(ActivationLifetime))
    {
      var existing := FindByEmail(users, body.email);
      if existing.Some? {
        return RegisterRejected(AppError(EmailExists, 400));
      }
      var t := CreateActivationToken(body, draw, sign, EnvOr(env, "ACTIVATION_SECRET"));
      if !mailSent {
        return RegisterRejected(AppError(MailFailed, 500));
      }
      r := ActivationSent(Reply(201, true, NoticeAsWritten(body.email)), t.token, t.activationCode);
    }

    /**
     * `activateUser`. Only a 201 changes the store, and then by exactly the
     * one new user under its (previously unknown) address.
     */
    method ActivateUser(token: Option<string>, code: Option<string>, secret: string, verify: Verifier,
                        newId: string, hash: string -> string) returns (r: ActivateOutcome)
      requires Valid()
      modifies this
      ensures Valid()
      ensures r == ActivateResult(old(users), token, code, secret, verify, newId, hash)
      ensures r.created.None? ==> users == old(users)
      ensures r.created.Some? ==>
        r.created.value.email !in old(users) && users == old(users)[r.created.value.email := r.created.value]
    {
      if !PresentString(token) || !PresentString(code) {
        return Refused(ActivationInputMissing);
      }
      var decoded := verify(token.value, secret);
      if decoded.Failure? {
        return Refused(ActivationTokenInvalid);
      }
      if decoded.value.None? {
        return Crashed();
      }
      var payload := decoded.value.value;
      if !payload.ActivationPayload? || payload.activationCode != code.value {
        return Refused(ActivationCodeInvalid);
      }
      var existing := FindByEmail(users, payload.user.email);
      if existing.Some? {
        return Refused(UserExists);
      }
      var built := NewUser(newId, FieldsOf(payload.user));
      if built.Failure? {
        return Crashed();
      }
      var doc := new UserDocument(built.value, CreatedPaths);
      doc.PreSave(hash);
      users := users[doc.record.email := doc.record];
      r := ActivateOutcome(Reply(201, true, UserActivated), Some(doc.record));
    }

    /**
     * `loginUser`. The store is only read and no session is written. An
     * unknown address and a wrong password are indistinguishable; a login
     * succeeds exactly when the stored hash accepts the password, and then
     * returns an access token for that user.
     */
    method LoginUser(email: Option<string>, password: Option<string>, compare: (string, string) -> bool,
                     sign: Signer, env: map<string, string>) returns (r: LoginOutcome)
      ensures r == LoginResult(users, email, password, compare, sign, env)
      ensures r.LoginRejected? ==>
        r.error == AppError(CredentialsMissing, 400) || r.error == AppError(CredentialsInvalid, 401)
      ensures r == LoginRejected(AppError(CredentialsMissing, 400)) <==> !PresentString(email) || !PresentString(password)
      ensures r.LoggedIn? <==>
        PresentString(email) && PresentString(password) && email.value in users
        && compare(password.value, users[email.value].password)
      ensures r.LoggedIn? ==>
        r.reply == Reply(200, true, LoginSucceeded) && r.user == users[email.value]
        && r.accessToken == SignAccessToken(users[email.value], sign, env)
    {
      if !PresentString(email) || !PresentString(password) {
        return LoginRejected(AppError(CredentialsMissing, 400));
      }
      var found := FindByEmail(users, email);
      if found.None? {
        return LoginRejected(AppError(CredentialsInvalid, 401));
      }
      var matched := compare(password.value, found.value.password);
      if !matched {
        return LoginRejected(AppError(CredentialsInvalid, 401));
      }
      r := LoggedIn(Reply(200, true, LoginSucceeded), SignAccessToken(found.value, sign, env), found.value);
    }
  }

  // ---------------------------------------------------------------------------
  // Properties across the handlers
  // ---------------------------------------------------------------------------

  /** The user an activation creates from a registration: trimmed name, hashed password, defaults. */
  predicate CreatedFrom(u: User, body: Registration, newId: string, hash: string -> string) {
    body.name.Some? && body.email.Some? && body.password.Some?
    && u == User(newId, Trim(body.name.value), body.email.value, hash(body.password.value), body.avatar,
                 DefaultRole, false, [])
  }

  /**
   * Registration then activation with the issued token and the mailed code
   * creates exactly the registered user, provided the address is new and
   * the registration passes the schema.
   */
  lemma ActivationRoundTrip(users: map<string, User>, body: Registration, draw: nat, sign: Signer, verify: Verifier,
                            env: map<string, string>, newId: string, hash: string -> string)
    requires JwtLaws(sign, verify)
    requires draw < 9000
    requires FindByEmail(users, body.email).None?
    requires NewUser(newId, FieldsOf(body)).Success?
    ensures var sent := RegisterResult(users, body, draw, sign, env, true);
      sent.ActivationSent?
      && var done := ActivateResult(users, Some(sent.activationToken), Some(sent.mailedCode),
                                    EnvOr(env, "ACTIVATION_SECRET"), verify, newId, hash);
         done.reply == Reply(201, true, UserActivated)
         && done.created.Some? && CreatedFrom(done.created.value, body, newId, hash)
  {
    var secret := EnvOr(env, "ACTIVATION_SECRET");
    var t := CreateActivationToken(body, draw, sign, secret);
    assert verify(t.token, secret) == Success(Some(ActivationPayload(body, t.activationCode)));
    ActivateVerifiedRegistration(users, t.token, t.activationCode, secret, verify, body, newId, hash);
  }

  /**
   * Activation with a token that verifies to a registration and the code it
   * carries creates the registered user, when the address is new and the
   * registration passes the schema.
   */
  lemma ActivateVerifiedRegistration(users: map<string, User>, token: string, code: string, secret: string,
                                     verify: Verifier, body: Registration, newId: string, hash: string -> string)
    requires token != "" && code != ""
    requires verify(token, secret) == Success(Some(ActivationPayload(body, code)))
    requires FindByEmail(users, body.email).None?
    requires NewUser(newId, FieldsOf(body)).Success?
    ensures var done := ActivateResult(users, Some(token), Some(code), secret, verify, newId, hash);
      done.reply == Reply(201, true, UserActivated)
      && done.created.Some? && CreatedFrom(done.created.value, body, newId, hash)
  {
  }

  /**
   * A decode result of null or undefined is a 500; any other falsy decode
   * result has no code to match and is refused as "Invalid activation code".
   */
  lemma FalsyDecodeOutcomes(users: map<string, User>, token: string, code: string, secret: string,
                            verify: Verifier, newId: string, hash: string -> string)
    requires token != "" && code != ""
    ensures verify(token, secret) == Success(None) ==>
      ActivateResult(users, Some(token), Some(code), secret, verify, newId, hash) == Crashed()
    ensures verify(token, secret) == Success(Some(FalsyPayload)) ==>
      ActivateResult(users, Some(token), Some(code), secret, verify, newId, hash) == Refused(ActivationCodeInvalid)
  {
  }

  /**
   * A token that verifies, with a code other than the one it carries, is
   * refused as "Invalid activation code" and creates nothing.
   */
  lemma WrongCodeCreatesNothing(users: map<string, User>, body: Registration, draw: nat, sign: Signer,
                                verify: Verifier, secret: string, code: string, newId: string, hash: string -> string)
    requires JwtLaws(sign, verify)
    requires draw < 9000
    requires code != "" && code != CreateActivationToken(body, draw, sign, secret).activationCode
    ensures ActivateResult(users, Some(CreateActivationToken(body, draw, sign, secret).token), Some(code),
                           secret, verify, newId, hash)
         == Refused(ActivationCodeInvalid)
  {
    var t := CreateActivationToken(body, draw, sign, secret);
    assert verify(t.token, secret) == Success(Some(ActivationPayload(body, t.activationCode)));
    assert t.token != "";
  }

  /**
   * The signature is checked before the code: a token signed with another
   * secret is refused as invalid or expired whatever code comes with it,
   * the right one included.
   */
  lemma ForeignTokenRefusedFirst(users: map<string, User>, body: Registration, draw: nat, sign: Signer,
                                 verify: Verifier, secret: string, other: string, code: string,
                                 newId: string, hash: string -> string)
    requires JwtLaws(sign, verify)
    requires draw < 9000
    requires other != secret && code != ""
    ensures ActivateResult(users, Some(CreateActivationToken(body, draw, sign, other).token), Some(code),
                           secret, verify, newId, hash)
         == Refused(ActivationTokenInvalid)
  {
    var t := CreateActivationToken(body, draw, sign, other);
    assert verify(t.token, secret).Failure?;
    assert t.token != "";
  }

  /**
   * After an activation, logging in with the registered password succeeds
   * (given that the password comparison accepts a password against its own
   * hash) and returns an access token for the new user.
   */
  lemma ActivatedUserCanLogIn(users: map<string, User>, body: Registration, newId: string, hash: string -> string,
                              compare: (string, string) -> bool, u: User, sign: Signer, env: map<string, string>)
    requires forall p :: compare(p, hash(p))
    requires CreatedFrom(u, body, newId, hash)
    requires body.email.value != ""
    ensures LoginResult(users[u.email := u], body.email, body.password, compare, sign, env)
         == if body.password.value == "" then LoginRejected(AppError(CredentialsMissing, 400))
            else LoggedIn(Reply(200, true, LoginSucceeded), SignAccessToken(u, sign, env), u)
  {
    var password := body.password.value;
    assert u.email == body.email.value && u.password == hash(password);
    if password != "" {
      StoredUserCanLogIn(users, u, password, compare, sign, env);
    }
  }

  /** A stored user whose hash accepts the password logs in as that user. */
  lemma StoredUserCanLogIn(users: map<string, User>, u: User, password: string,
                           compare: (string, string) -> bool, sign: Signer, env: map<string, string>)
    requires u.email != "" && password != ""
    requires compare(password, u.password)
    ensures LoginResult(users[u.email := u], Some(u.email), Some(password), compare, sign, env)
         == LoggedIn(Reply(200, true, LoginSucceeded), SignAccessToken(u, sign, env), u)
  {
    assert FindByEmail(users[u.email := u], Some(u.email)) == Some(u);
  }

  /**
   * As the handler is written, two registrants whose activation mail went
   * out get the identical reply, whatever their addresses.
   */
  lemma RegisterRepliesIgnoreAddress(users: map<string, User>, a: Registration, b: Registration,
                                     drawA: nat, drawB: nat, sign: Signer, env: map<string, string>)
    requires drawA < 9000 && drawB < 9000
    requires RegisterResult(users, a, drawA, sign, env, true).ActivationSent?
    requires RegisterResult(users, b, drawB, sign, env, true).ActivationSent?
    ensures RegisterResult(users, a, drawA, sign, env, true).reply
         == RegisterResult(users, b, drawB, sign, env, true).reply
  {
    NoticeAsWrittenIgnoresAddress(a.email, b.email);
  }

  /** Once an address is activated, registering it again is refused as a duplicate. */
  lemma ReRegistrationRefused(users: map<string, User>, u: User, body: Registration, draw: nat, sign: Signer,
                              env: map<string, string>, mailSent: bool)
    requires draw < 9000
    requires body.email == Some(u.email)
    ensures RegisterResult(users[u.email := u], body, draw, sign, env, mailSent)
         == RegisterRejected(AppError(EmailExists, 400))
  {
  }

  /** An unknown address and a known address with a wrong password get the identical refusal. */
  lemma LoginFailuresIndistinguishable(users: map<string, User>, unknown: string, known: string, password: string,
                                       compare: (string, string) -> bool, sign: Signer, env: map<string, string>)
    requires unknown != "" && known != "" && password != ""
    requires unknown !in users && known in users && !compare(password, users[known].password)
    ensures LoginResult(users, Some(unknown), Some(password), compare, sign, env)
         == LoginResult(users, Some(known), Some(password), compare, sign, env)
  {
  }
}
