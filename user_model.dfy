/**
 * The user schema: the e-mail pattern, the required and minimum-length
 * rules, the `trim` setter and the defaults a new user document gets, the
 * pre-save hook that hashes a modified password, and the two session
 * tokens a user document signs.
 */
module UserModel {
  import opened Wrappers
  import opened JsText
  import opened Tokens

  const NameRequired := "Please enter your name"
  const EmailRequired := "Please enter your email"
  const EmailInvalid := "Please enter a valid email address"
  const PasswordRequired := "Please enter your password"
  const PasswordTooShort := "Password should be at least 6 characters long"
  const MinPasswordLength := 6
  const DefaultRole := "user"

  // ---------------------------------------------------------------------------
  // The e-mail pattern /^[^\s@]+@[^\s@]+\.[^\s@]+$/
  // ---------------------------------------------------------------------------

  /** A character of the class `[^\s@]`. */
  predicate IsAddressChar(c: char) {
    !IsSpace(c) && c != '@'
  }

  /** A string the sub-pattern `[^\s@]+` matches whole. */
  predicate AddressRun(s: string) {
    |s| > 0 && forall i :: 0 <= i < |s| ==> IsAddressChar(s[i])
  }

  /** The pattern matches `s` with its `@` at `at` and its `\.` at `dot`. */
  predicate SplitMatches(s: string, at: int, dot: int) {
    0 <= at < dot < |s| && s[at] == '@' && s[dot] == '.'
    && AddressRun(s[..at]) && AddressRun(s[at + 1..dot]) && AddressRun(s[dot + 1..])
  }

  /** `emailRegexPattern.test(s)`: some choice of the `@` and the `.` makes every run match. */
  predicate MatchesEmailPattern(s: string) {
    exists at, dot | 0 <= at < dot < |s| :: SplitMatches(s, at, dot)
  }

  /** The number of occurrences of `c` in `s`. */
  function CountOf(s: string, c: char): nat {
    if s == [] then 0 else (if s[0] == c then 1 else 0) + CountOf(s[1..], c)
  }

  /** `d` holds a `.` that is neither its first nor its last character. */
  predicate HasInnerDot(d: string) {
    exists k | 0 < k < |d| - 1 :: d[k] == '.'
  }

  /**
   * The shape of an address stated without the pattern: exactly one `@`,
   * with text before it, no white space anywhere, and a domain that holds a
   * `.` with text on both sides.
   */
  predicate WellFormedEmail(s: string) {
    CountOf(s, '@') == 1
    && (forall i | 0 <= i < |s| :: !IsSpace(s[i]))
    && exists at | 0 < at < |s| :: s[at] == '@' && HasInnerDot(s[at + 1..])
  }

  lemma {:induction false} CountOfAppend(a: string, b: string, c: char)
    ensures CountOf(a + b, c) == CountOf(a, c) + CountOf(b, c)
  {
    if a == [] {
      assert a + b == b;
    } else {
      assert (a + b)[1..] == a[1..] + b;
      CountOfAppend(a[1..], b, c);
    }
  }

  lemma {:induction false} CountOfZero(s: string, c: char)
    ensures CountOf(s, c) == 0 <==> forall i :: 0 <= i < |s| ==> s[i] != c
  {
    if s != [] {
      CountOfZero(s[1..], c);
      assert forall i :: 1 <= i < |s| ==> s[i] == s[1..][i - 1];
    }
  }

  /** Counting `c` around one occurrence of it at `at`. */
  lemma CountAround(s: string, at: int, c: char)
    requires 0 <= at < |s| && s[at] == c
    ensures CountOf(s, c) == CountOf(s[..at], c) + 1 + CountOf(s[at + 1..], c)
  {
    assert s == s[..at] + ([s[at]] + s[at + 1..]);
    CountOfAppend(s[..at], [s[at]] + s[at + 1..], c);
    CountOfAppend([s[at]], s[at + 1..], c);
  }

  /** A match of the pattern, read as the shape it guarantees. */
  lemma MatchIsWellFormed(s: string, at: int, dot: int)
    requires SplitMatches(s, at, dot)
    ensures WellFormedEmail(s)
  {
    forall i | 0 <= i < |s| && i != at
      ensures IsAddressChar(s[i])
    {
      if i < at {
        assert s[i] == s[..at][i];
      } else if i < dot {
        assert s[i] == s[at + 1..dot][i - at - 1];
      } else if i > dot {
        assert s[i] == s[dot + 1..][i - dot - 1];
      }
    }
    CountAround(s, at, '@');
    CountOfZero(s[..at], '@');
    CountOfZero(s[at + 1..], '@');
    assert s[at + 1..][dot - at - 1] == '.';
  }

  /** In a well-formed address every character but its one `@` is an address character. */
  lemma AddressCharsAround(s: string, at: int)
    requires WellFormedEmail(s) && 0 <= at < |s| && s[at] == '@'
    ensures forall i :: 0 <= i < |s| && i != at ==> IsAddressChar(s[i])
  {
    CountAround(s, at, '@');
    CountOfZero(s[..at], '@');
    CountOfZero(s[at + 1..], '@');
    forall i | 0 <= i < |s| && i != at
      ensures IsAddressChar(s[i])
    {
      if i < at {
        assert s[..at][i] == s[i];
      } else {
        assert s[at + 1..][i - at - 1] == s[i];
      }
    }
  }

  /** A non-empty slice of address characters is a run. */
  lemma SliceIsRun(s: string, lo: int, hi: int)
    requires 0 <= lo < hi <= |s|
    requires forall i :: lo <= i < hi ==> IsAddressChar(s[i])
    ensures AddressRun(s[lo..hi])
  {
    assert forall i :: 0 <= i < hi - lo ==> s[lo..hi][i] == s[lo + i];
  }

  /** A well-formed address, split where the pattern matches it. */
  lemma WellFormedMatches(s: string)
    requires WellFormedEmail(s)
    ensures MatchesEmailPattern(s)
  {
    var at :| 0 < at < |s| && s[at] == '@' && HasInnerDot(s[at + 1..]);
    var k :| 0 < k < |s[at + 1..]| - 1 && s[at + 1..][k] == '.';
    var dot := at + 1 + k;
    AddressCharsAround(s, at);
    SliceIsRun(s, 0, at);
    SliceIsRun(s, at + 1, dot);
    SliceIsRun(s, dot + 1, |s|);
    assert s[..at] == s[0..at] && s[dot + 1..] == s[dot + 1..|s|];
    assert SplitMatches(s, at, dot);
  }

  /** The pattern accepts exactly the well-formed addresses. */
  lemma EmailPatternCharacterized(s: string)
    ensures MatchesEmailPattern(s) <==> WellFormedEmail(s)
  {
    if MatchesEmailPattern(s) {
      var at, dot :| 0 <= at < dot < |s| && SplitMatches(s, at, dot);
      MatchIsWellFormed(s, at, dot);
    }
    if WellFormedEmail(s) {
      WellFormedMatches(s);
    }
  }

  // ---------------------------------------------------------------------------
  // User documents
  // ---------------------------------------------------------------------------

  /** The fields given to `userModel.create`; each may be absent. */
  datatype UserFields = UserFields(
    name: Option<string>,
    email: Option<string>,
    password: Option<string>,
    avatar: Option<Avatar>,
    role: Option<string>,
    isVerified: Option<bool>)

  /** A stored user. `password` holds whatever the pre-save hook left there. */
  datatype User = User(
    id: string,
    name: string,
    email: string,
    password: string,
    avatar: Option<Avatar>,
    role: string,
    isVerified: bool,
    courses: seq<string>)

  /** One path's validation failure, with the schema's message for it. */
  datatype FieldError = FieldError(path: string, message: string)

  /** The name after the `trim` setter. */
  function CastName(name: Option<string>): Option<string> {
    if name.Some? then Some(Trim(name.value)) else None
  }

  function NameErrors(name: Option<string>): seq<FieldError> {
    if !PresentString(CastName(name)) then [FieldError("name", NameRequired)] else []
  }

  function EmailErrors(email: Option<string>): seq<FieldError> {
    if !PresentString(email) then [FieldError("email", EmailRequired)]
    else if !MatchesEmailPattern(email.value) then [FieldError("email", EmailInvalid)]
    else []
  }

  function PasswordErrors(password: Option<string>): seq<FieldError> {
    if !PresentString(password) then [FieldError("password", PasswordRequired)]
    else if |password.value| < MinPasswordLength then [FieldError("password", PasswordTooShort)]
    else []
  }

  /** The first failing validator of each path, in schema order. */
  function ValidationErrors(f: UserFields): seq<FieldError> {
    NameErrors(f.name) + EmailErrors(f.email) + PasswordErrors(f.password)
  }

  /**
   * The document `userModel.create(f)` builds and validates before the save
   * hooks run: `id` is the `_id` the driver assigns.
   */
  function NewUser(id: string, f: UserFields): (r: Result<User, seq<FieldError>>)
    ensures r.Success? <==>
      f.name.Some? && !AllSpace(f.name.value)
      && f.email.Some? && WellFormedEmail(f.email.value)
      && f.password.Some? && |f.password.value| >= MinPasswordLength
    ensures r.Success? ==>
      var u := r.value;
      u.id == id && u.name == Trim(f.name.value) && u.email == f.email.value
      && u.password == f.password.value && u.avatar == f.avatar
      && (f.role.None? ==> u.role == DefaultRole) && (f.role.Some? ==> u.role == f.role.value)
      && (f.isVerified.None? ==> !u.isVerified) && (f.isVerified.Some? ==> u.isVerified == f.isVerified.value)
      && u.courses == []
    ensures r.Failure? ==> r.error != []
    ensures f.name.None? || AllSpace(f.name.value) ==> r.Failure? && FieldError("name", NameRequired) in r.error
    ensures !PresentString(f.email) ==> r.Failure? && FieldError("email", EmailRequired) in r.error
    ensures !PresentString(f.password) ==> r.Failure? && FieldError("password", PasswordRequired) in r.error
    ensures f.password.Some? && 0 < |f.password.value| < MinPasswordLength ==>
      r.Failure? && FieldError("password", PasswordTooShort) in r.error
    ensures f.email.Some? && f.email.value != "" && !WellFormedEmail(f.email.value) ==>
      r.Failure? && FieldError("email", EmailInvalid) in r.error
  {
    EmailPatternCharacterized(f.email.GetOr(""));
    var errors := ValidationErrors(f);
    if errors != [] then
      Failure(errors)
    else
      Success(User(id, Trim(f.name.value), f.email.value, f.password.value, f.avatar,
                   f.role.GetOr(DefaultRole), f.isVerified.GetOr(false), []))
  }

  /**
   * A loaded or newly built user document, with the set of paths Mongoose
   * marks as modified since it was last saved.
   */
  class UserDocument {
    var record: User
    var modifiedPaths: set<string>

    constructor (u: User, modified: set<string>)
      ensures record == u && modifiedPaths == modified
    {
      record := u;
      modifiedPaths := modified;
    }

    /**
     * The pre-save hook: a modified password is replaced by its hash
     * (bcrypt with cost 10, given as `hash`); otherwise nothing changes.
     */
    method PreSave(hash: string -> string)
      modifies this`record
      ensures "password" in modifiedPaths ==> record == old(record).(password := hash(old(record).password))
      ensures "password" !in modifiedPaths ==> record == old(record)
    {
      if "password" !in modifiedPaths {
        return;
      }
      record := record.(password := hash(record.password));
    }
  }

  /** The paths a document built from the given fields has set, all modified. */
  const CreatedPaths: set<string> := {"name", "email", "password", "avatar", "role", "isVerified", "course"}

  // ---------------------------------------------------------------------------
  // Session tokens
  // ---------------------------------------------------------------------------

  /** `SignAccessToken()`: `{ id: _id }` signed with `ACCESS_TOKEN`, no expiry. */
  function SignAccessToken(u: User, sign: Signer, env: map<string, string>): string {
    sign(IdPayload(u.id), EnvOr(env, "ACCESS_TOKEN"), NoExpiry)
  }

  /** `SignRefreshToken()`: `{ id: _id }` signed with `REFRESH_TOKEN`, no expiry. */
  function SignRefreshToken(u: User, sign: Signer, env: map<string, string>): string {
    sign(IdPayload(u.id), EnvOr(env, "REFRESH_TOKEN"), NoExpiry)
  }

  /**
   * Both session tokens carry only the user's id and no expiry; the refresh
   * token is the access token signed with the refresh secret instead.
   */
  lemma SessionTokensDifferOnlyInSecret(u: User, sign: Signer, env: map<string, string>)
    ensures SignAccessToken(u, sign, env) == sign(IdPayload(u.id), EnvOr(env, "ACCESS_TOKEN"), NoExpiry)
    ensures SignRefreshToken(u, sign, env)
         == SignAccessToken(u, sign, env["ACCESS_TOKEN" := EnvOr(env, "REFRESH_TOKEN")])
  {
  }

  /**
   * Each session token verifies to `{ id }` under its own secret, and when
   * the two secrets differ neither token verifies under the other's.
   */
  lemma SessionTokensVerify(u: User, sign: Signer, verify: Verifier, env: map<string, string>)
    requires JwtLaws(sign, verify)
    ensures verify(SignAccessToken(u, sign, env), EnvOr(env, "ACCESS_TOKEN")) == Success(Some(IdPayload(u.id)))
    ensures verify(SignRefreshToken(u, sign, env), EnvOr(env, "REFRESH_TOKEN")) == Success(Some(IdPayload(u.id)))
    ensures EnvOr(env, "ACCESS_TOKEN") != EnvOr(env, "REFRESH_TOKEN") ==>
      verify(SignRefreshToken(u, sign, env), EnvOr(env, "ACCESS_TOKEN")).Failure?
      && verify(SignAccessToken(u, sign, env), EnvOr(env, "REFRESH_TOKEN")).Failure?
  {
  }
}
