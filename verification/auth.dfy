/** Credential sign-in for the dashboard: the `authorize` decision over the
    submitted credentials and the backend's login reply, and the two
    callbacks that carry the signed-in user into the token and from the
    token into `session.user`. */
module Auth {
  import opened Wrappers

  /** Session lifetime in seconds: seven days. */
  const SessionMaxAge: nat := 7 * 24 * 60 * 60

  /** Name of the session cookie. */
  const SessionCookieName: string := "next-auth.session-token-dashboard"

  /** The only role allowed to sign in. */
  const AdminRole: string := "ADMIN"

  const MissingCredentialsMessage: string := "Please enter your email and password"
  const InvalidCredentialsMessage: string := "Invalid email or password"
  const AccessDeniedMessage: string := "Access denied! Only admin can login."
  const GenericFailureMessage: string := "Authentication failed. Please try again."

  /** The submitted form; a field may be missing. */
  datatype Credentials = Credentials(email: Option<string>, password: Option<string>)

  /** The user record of the backend's login reply (`_id` is `objectId` here). */
  datatype BackendUser = BackendUser(
    objectId: string, fullName: string, email: string, role: string,
    profileImage: string, verified: bool)

  /** The `data` part of the login reply. */
  datatype LoginData = LoginData(user: Option<BackendUser>, accessToken: string, refreshToken: string)

  /** The parsed login reply; `message` and `data` may be missing. */
  datatype LoginBody = LoginBody(success: bool, message: Option<string>, data: Option<LoginData>)

  /** A value thrown inside the request block: an `Error` with its message,
      or any other thrown value. */
  datatype Thrown = ErrorThrown(message: string) | NonErrorThrown

  /** What the login request to the backend produced: an HTTP status
      verdict (`res.ok`) with a parsed body (absent for a JSON `null`), or a
      value thrown by the request or by parsing. */
  datatype Exchange = Replied(httpOk: bool, body: Option<LoginBody>) | Threw(thrown: Thrown)

  /** The user `authorize` returns on success. */
  datatype SignedInUser = SignedInUser(
    id: string, name: string, email: string, role: string, profileImage: string,
    verified: bool, accessToken: string, refreshToken: string)

  /** The eight user fields as they sit on the token and on `session.user`;
      a field the token never received is absent. */
  datatype Profile = Profile(
    id: Option<string>, name: Option<string>, email: Option<string>, role: Option<string>,
    profileImage: Option<string>, verified: Option<bool>,
    accessToken: Option<string>, refreshToken: Option<string>)

  /** JavaScript truthiness of an optional string field. */
  predicate Given(field: Option<string>)
  {
    field.Some? && field.value != ""
  }

  /** Both credentials are present and non-empty. */
  predicate CredentialsGiven(creds: Option<Credentials>)
  {
    creds.Some? && Given(creds.value.email) && Given(creds.value.password)
  }

  /** The message of the `TypeError` the runtime raises when a property is
      read from `undefined`. */
  function ReadOfUndefined(property: string): string
  {
    "Cannot read properties of undefined (reading '" + property + "')"
  }

  /** The message for a failed login reply: the backend's own message when
      it has a non-empty one, otherwise the generic invalid-login text. */
  function RejectionMessage(body: Option<LoginBody>): (m: string)
    ensures m != ""
  {
    if body.Some? && Given(body.value.message) then body.value.message.value else InvalidCredentialsMessage
  }

  /** The request block of `authorize`: call the backend with the
      credentials, then check the reply's success, then the user's role,
      and build the signed-in user. A failure is the value thrown. */
  function Attempt(email: string, password: string, backend: (string, string) -> Exchange): (r: Result<SignedInUser, Thrown>)
    ensures r.Success? ==> r.value.role == AdminRole
  {
    match backend(email, password)
    case Threw(t) => Failure(t)
    case Replied(ok, body) =>
      if !ok || body.None? || !body.value.success then
        Failure(ErrorThrown(RejectionMessage(body)))
      else if body.value.data.None? then
        Failure(ErrorThrown(ReadOfUndefined("user")))
      else if body.value.data.value.user.None? then
        Failure(ErrorThrown(ReadOfUndefined("role")))
      else
        var data := body.value.data.value;
        var user := data.user.value;
        if user.role != AdminRole then
          Failure(ErrorThrown(AccessDeniedMessage))
        else
          Success(SignedInUser(user.objectId, user.fullName, user.email, user.role,
                               user.profileImage, user.verified, data.accessToken, data.refreshToken))
  }

  /** `authorize`: credentials first, then the request block, whose thrown
      values are re-thrown as errors with the same message, or with the
      generic message when the thrown value is not an `Error`. A success
      always carries the admin role and comes from a successful reply to
      a request made with the submitted credentials. */
  function Authorize(creds: Option<Credentials>, backend: (string, string) -> Exchange): (r: Result<SignedInUser, string>)
    ensures !CredentialsGiven(creds) ==> r == Failure(MissingCredentialsMessage)
    ensures r.Success? ==> r.value.role == AdminRole
    ensures r.Success? ==>
      CredentialsGiven(creds)
      && var reply := backend(creds.value.email.value, creds.value.password.value);
         reply.Replied? && reply.httpOk && reply.body.Some? && reply.body.value.success
  {
    if !CredentialsGiven(creds) then
      Failure(MissingCredentialsMessage)
    else
      match Attempt(creds.value.email.value, creds.value.password.value, backend)
      case Success(user) => Success(user)
      case Failure(ErrorThrown(message)) => Failure(message)
      case Failure(NonErrorThrown) => Failure(GenericFailureMessage)
  }

  /** The field map the callbacks apply: the signed-in user as token claims. */
  function ProfileOf(user: SignedInUser): Profile
  {
    Profile(Some(user.id), Some(user.name), Some(user.email), Some(user.role),
            Some(user.profileImage), Some(user.verified),
            Some(user.accessToken), Some(user.refreshToken))
  }

  /** Reads a signed-in user back from a profile whose eight fields are all present. */
  function UserOf(p: Profile): Option<SignedInUser>
  {
    if p.id.Some? && p.name.Some? && p.email.Some? && p.role.Some? && p.profileImage.Some?
       && p.verified.Some? && p.accessToken.Some? && p.refreshToken.Some?
    then Some(SignedInUser(p.id.value, p.name.value, p.email.value, p.role.value, p.profileImage.value,
                           p.verified.value, p.accessToken.value, p.refreshToken.value))
    else None
  }

  /** The token: the eight user claims the `jwt` callback writes, and the
      claims the authentication library manages itself (subject, issue and
      expiry times and the like), which the callback leaves alone. */
  class Token {
    var id: Option<string>
    var name: Option<string>
    var email: Option<string>
    var role: Option<string>
    var profileImage: Option<string>
    var verified: Option<bool>
    var accessToken: Option<string>
    var refreshToken: Option<string>
    var libraryClaims: map<string, string>

    /** The eight user claims as one value. */
    function Claims(): Profile
      reads this
    {
      Profile(id, name, email, role, profileImage, verified, accessToken, refreshToken)
    }

    /** A token that holds only library-managed claims. */
    constructor (libraryClaims: map<string, string>)
      ensures Claims() == Profile(None, None, None, None, None, None, None, None)
      ensures this.libraryClaims == libraryClaims
    {
      id, name, email, role := None, None, None, None;
      profileImage, verified, accessToken, refreshToken := None, None, None, None;
      this.libraryClaims := libraryClaims;
    }

    /** The `jwt` callback: with a user, overwrite exactly the eight user
        claims from it; without one, leave the token as it was. */
    method Jwt(user: Option<SignedInUser>)
      modifies this
      ensures user.Some? ==> Claims() == ProfileOf(user.value)
      ensures user.None? ==> Claims() == old(Claims())
      ensures libraryClaims == old(libraryClaims)
    {
      if user.Some? {
        var u := user.value;
        id := Some(u.id);
        name := Some(u.name);
        email := Some(u.email);
        role := Some(u.role);
        profileImage := Some(u.profileImage);
        verified := Some(u.verified);
        accessToken := Some(u.accessToken);
        refreshToken := Some(u.refreshToken);
      }
    }
  }

  /** The session object handed to the client: its user and its expiry. */
  class Session {
    var user: Option<Profile>
    var expires: string

    /** A session whose user the callback has not yet set. */
    constructor (expires: string)
      ensures user == None && this.expires == expires
    {
      user := None;
      this.expires := expires;
    }

    /** The `session` callback: `session.user` becomes exactly the token's
        eight user claims; nothing else of the session changes. */
    method FromToken(token: Token)
      modifies this
      ensures user == Some(token.Claims())
      ensures expires == old(expires)
    {
      user := Some(token.Claims());
    }
  }

  /** A sign-in end to end: `authorize`, then `jwt` on a fresh token with the
      returned user, then `session` from that token. The result is
      `session.user`, or the error `authorize` raised. */
  method SignIn(creds: Option<Credentials>, backend: (string, string) -> Exchange, expires: string)
    returns (r: Result<Profile, string>)
    ensures r.Success? <==> Authorize(creds, backend).Success?
    ensures r.Success? ==> UserOf(r.value) == Some(Authorize(creds, backend).value)
    ensures r.Failure? ==> r.error == Authorize(creds, backend).error
  {
    var outcome := Authorize(creds, backend);
    if outcome.Failure? {
      return Failure(outcome.error);
    }
    var token := new Token(map[]);
    token.Jwt(Some(outcome.value));
    var session := new Session(expires);
    session.FromToken(token);
    ProfileRoundTrip(outcome.value);
    r := Success(session.user.value);
  }

  /** The session lifetime is 604800 seconds. */
  lemma SessionMaxAgeIsSevenDays()
    ensures SessionMaxAge == 604800
  {
  }

  /** Missing or empty credentials fail with the prompt message before any
      backend call: the outcome does not depend on the backend at all. */
  lemma MissingCredentialsSkipBackend(creds: Option<Credentials>, b1: (string, string) -> Exchange, b2: (string, string) -> Exchange)
    requires !CredentialsGiven(creds)
    ensures Authorize(creds, b1) == Failure(MissingCredentialsMessage)
    ensures Authorize(creds, b1) == Authorize(creds, b2)
  {
  }

  /** A reply that is not ok, not a body, or not successful fails with the
      backend's non-empty message, else with the invalid-login message. */
  lemma BackendRejection(email: string, password: string, backend: (string, string) -> Exchange)
    requires email != "" && password != ""
    requires backend(email, password).Replied?
    requires var reply := backend(email, password);
      !reply.httpOk || reply.body.None? || !reply.body.value.success
    ensures var body := backend(email, password).body;
      var r := Authorize(Some(Credentials(Some(email), Some(password))), backend);
      if body.Some? && body.value.message.Some? && body.value.message.value != ""
      then r == Failure(body.value.message.value)
      else r == Failure(InvalidCredentialsMessage)
  {
  }

  /** A successful reply for a user whose role is not the admin role fails
      with the access-denied message. */
  lemma NonAdminDenied(email: string, password: string, backend: (string, string) -> Exchange,
                       message: Option<string>, user: BackendUser, accessToken: string, refreshToken: string)
    requires email != "" && password != ""
    requires backend(email, password) ==
      Replied(true, Some(LoginBody(true, message, Some(LoginData(Some(user), accessToken, refreshToken)))))
    requires user.role != AdminRole
    ensures Authorize(Some(Credentials(Some(email), Some(password))), backend) == Failure(AccessDeniedMessage)
  {
  }

  /** A successful reply for an admin maps `_id` to `id`, `fullName` to
      `name`, copies email, role, profile image and verified flag, and takes
      both tokens from the reply's `data`. */
  lemma AdminSignInMapping(email: string, password: string, backend: (string, string) -> Exchange,
                           message: Option<string>, user: BackendUser, accessToken: string, refreshToken: string)
    requires email != "" && password != ""
    requires backend(email, password) ==
      Replied(true, Some(LoginBody(true, message, Some(LoginData(Some(user), accessToken, refreshToken)))))
    requires user.role == AdminRole
    ensures var r := Authorize(Some(Credentials(Some(email), Some(password))), backend);
      r.Success?
      && r.value.id == user.objectId && r.value.name == user.fullName
      && r.value.email == user.email && r.value.role == user.role
      && r.value.profileImage == user.profileImage && r.value.verified == user.verified
      && r.value.accessToken == accessToken && r.value.refreshToken == refreshToken
  {
  }

  /** Errors thrown by the request or by parsing are re-thrown with their
      own message; any other thrown value becomes the generic message. */
  lemma ThrownValuesRethrown(email: string, password: string, backend: (string, string) -> Exchange)
    requires email != "" && password != ""
    requires backend(email, password).Threw?
    ensures var r := Authorize(Some(Credentials(Some(email), Some(password))), backend);
      match backend(email, password).thrown
      case ErrorThrown(m) => r == Failure(m)
      case NonErrorThrown => r == Failure(GenericFailureMessage)
  {
  }

  /** A successful reply without `data`, or without `data.user`, fails with
      the runtime's message for reading from `undefined`. */
  lemma MissingReplyFieldFails(email: string, password: string, backend: (string, string) -> Exchange,
                               message: Option<string>, data: Option<LoginData>)
    requires email != "" && password != ""
    requires backend(email, password) == Replied(true, Some(LoginBody(true, message, data)))
    requires data.None? || data.value.user.None?
    ensures Authorize(Some(Credentials(Some(email), Some(password))), backend)
      == Failure(if data.None? then ReadOfUndefined("user") else ReadOfUndefined("role"))
  {
  }

  /** The callbacks lose nothing: reading the user back from the claims
      written for it gives the same user. */
  lemma ProfileRoundTrip(user: SignedInUser)
    ensures UserOf(ProfileOf(user)) == Some(user)
  {
  }

  /** The backend's access token reaches `session.user`: for an admin's
      successful reply, `authorize` followed by the callbacks' field map
      yields the reply's `data.accessToken`. */
  lemma AccessTokenReachesSession(email: string, password: string, backend: (string, string) -> Exchange,
                                  message: Option<string>, user: BackendUser, accessToken: string, refreshToken: string)
    requires email != "" && password != ""
    requires backend(email, password) ==
      Replied(true, Some(LoginBody(true, message, Some(LoginData(Some(user), accessToken, refreshToken)))))
    requires user.role == AdminRole
    ensures var r := Authorize(Some(Credentials(Some(email), Some(password))), backend);
      r.Success? && ProfileOf(r.value).accessToken == Some(accessToken)
      && ProfileOf(r.value).refreshToken == Some(refreshToken)
  {
    AdminSignInMapping(email, password, backend, message, user, accessToken, refreshToken);
  }
}
