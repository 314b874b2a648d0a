/**
 * The four handlers of `UserController` (src/auth/auth.collection.ts) as
 * written, including the error branches that send a reply without returning.
 *
 * Each handler is a pure transition from a store and a request body to an
 * `Outcome`: the first reply the client sees, the store afterwards, and
 * whether an exception escaped the handler. bcrypt, jsonwebtoken and the
 * token generator are parameters.
 */
module AuthCollection {
  import opened Wrappers
  import opened UserStore
  import opened Tokens
  import opened Responses

  const MsgUnknownEmail := "User with the provided email doesn't exist"
  const MsgPasswordMismatch := "Passwords do not match"
  const MsgEmailTaken := "A user with the same email exists"
  const MsgUserCreated := "User created successfully"
  const MsgNoTokens := "Unauthorized - no tokens provided"
  const MsgTokenValid := "Token is valid"
  const MsgRefreshExpired := "Unauthorized - refresh token expired"
  const MsgRefreshInvalid := "Unauthorized - invalid refresh token"
  const MsgAccessInvalid := "Unauthorized - invalid access token"
  const MsgNoSession := "User with the provided refresh token doesn't exist"

  /** bcrypt: `hash(password, 10)` and `compare(password, hash)`. The salt is folded into `hash`. */
  datatype Crypto = Crypto(hash: string -> string, matches: (string, string) -> bool)

  datatype LoginBody = LoginBody(email: string, password: string)

  datatype RegisterBody = RegisterBody(
    username: string, email: string, password: string,
    fullname: string, role: string, phone: string)

  datatype GoogleBody = GoogleBody(
    displayName: string, email: string, emailVerified: bool,
    photoURL: string, role: string)

  /** Token fields of the whoami body; "" stands for an absent or empty field. */
  datatype WhoamiBody = WhoamiBody(accessToken: string, refreshToken: string)

  /** The record `register` creates: hashed password, no session. */
  function RegisteredUser(req: RegisterBody, crypto: Crypto): User {
    User(req.email, crypto.hash(req.password), req.username, req.fullname,
         Some(req.phone), None, req.role, None, None)
  }

  /** The record `googleLogin` creates for an unseen email: empty password, no session. */
  function GoogleUser(req: GoogleBody): User {
    User(req.email, "", req.displayName, req.displayName,
         None, Some(req.photoURL), if req.role == "" then "User" else req.role, Some(req.emailVerified), None)
  }

  /** The common tail of login and googleLogin: store the new refresh token, reply with profile and pair. */
  function IssueSession(c: Ctx, id: UserId, u: User, issued: TokenPair): Flow {
    var c :- StoreRefreshToken(c, id, issued.refresh);
    Send(c, Reply(OK, Profile(id, u, issued)))
  }

  // ---------------------------------------------------------------- login

  function LoginTry(c: Ctx, req: LoginBody, crypto: Crypto, issued: TokenPair): Flow {
    var found := FindByEmail(c.store, req.email);
    var c :- SendIf(found.None?, c, Reply(NOT_FOUND, Message(MsgUnknownEmail)));
    if found.None? then
      Raised(c, NullDereference)  // `user.password` on a null user
    else
      var id := found.value;
      var u := c.store.users[id];
      var c :- SendIf(!crypto.matches(req.password, u.password), c, Reply(BAD_REQUEST, Message(MsgPasswordMismatch)));
      IssueSession(c, id, u, issued)
  }

  /**
   * POST /login. An unknown email gets 404 and changes nothing. A wrong
   * password gets 400, yet execution carries on and the user's refresh token
   * is still replaced. A right password gets 200 with the profile and the new
   * pair, whose refresh token is now the one stored on that user alone.
   */
  function Login(s: ValidStore, req: LoginBody, crypto: Crypto, issued: TokenPair): (out: Outcome)
    ensures !HasEmail(s, req.email) ==>
      out == Outcome(Some(Reply(NOT_FOUND, Message(MsgUnknownEmail))), s, true)
    ensures forall id :: id in s.users && s.users[id].email == req.email && !crypto.matches(req.password, s.users[id].password) ==>
      && out.reply == Some(Reply(BAD_REQUEST, Message(MsgPasswordMismatch)))
      && Rotated(s, out.store, id, issued.refresh)
      && out.escaped
    ensures forall id :: id in s.users && s.users[id].email == req.email && crypto.matches(req.password, s.users[id].password) ==>
      && out.reply == Some(Reply(OK, Profile(id, s.users[id], issued)))
      && Rotated(s, out.store, id, issued.refresh)
      && !out.escaped
  {
    Catch(LoginTry(Ctx(s, None), req, crypto, issued))
  }

  // ------------------------------------------------------------- register

  function RegisterTry(c: Ctx, req: RegisterBody, crypto: Crypto): Flow {
    var c :- SendIf(FindByEmail(c.store, req.email).Some?, c, Reply(CONFLICT, Message(MsgEmailTaken)));
    match Create(c.store, RegisteredUser(req, crypto))
    case None => Raised(c, StoreError)
    case Some((s, _)) => Send(c.(store := s), Reply(OK, Created(MsgUserCreated)))
  }

  /**
   * POST /register. A taken email gets 409; the create that follows is refused
   * by the unique constraint, so no second record with that email appears.
   * A new email adds exactly one record, holding the hashed password and no
   * refresh token, and the reply carries no tokens.
   */
  function Register(s: ValidStore, req: RegisterBody, crypto: Crypto): (out: Outcome)
    ensures HasEmail(s, req.email) ==>
      out == Outcome(Some(Reply(CONFLICT, Message(MsgEmailTaken))), s, true)
    ensures !HasEmail(s, req.email) ==>
      && out.reply == Some(Reply(OK, Created(MsgUserCreated)))
      && |out.store.users| == |s.users| + 1
      && (exists id ::
            && AddedAt(s, out.store, id, RegisteredUser(req, crypto))
            && out.store.users[id].email == req.email
            && out.store.users[id].password == crypto.hash(req.password)
            && out.store.users[id].refreshToken.None?)
      && !out.escaped
  {
    Catch(RegisterTry(Ctx(s, None), req, crypto))
  }

  // ---------------------------------------------------------- googleLogin

  function GoogleLoginTry(c: Ctx, req: GoogleBody, issued: TokenPair): Flow {
    match FindByEmail(c.store, req.email)
    case Some(id) => IssueSession(c, id, c.store.users[id], issued)
    case None =>
      match Create(c.store, GoogleUser(req))
      case None => Raised(c, StoreError)
      case Some((s, id)) => IssueSession(c.(store := s), id, GoogleUser(req), issued)
  }

  /**
   * POST /google-login, an upsert on email. An existing record is reused; an
   * unseen email creates exactly one record with an empty password and the
   * defaulted role. Either way the reply is 200 and the record's refresh token
   * is replaced by the newly issued one.
   */
  function GoogleLogin(s: ValidStore, req: GoogleBody, issued: TokenPair): (out: Outcome)
    ensures out.reply.Some? && out.reply.value.status == OK && !out.escaped
    ensures forall id :: id in s.users && s.users[id].email == req.email ==>
      && out.reply == Some(Reply(OK, Profile(id, s.users[id], issued)))
      && Rotated(s, out.store, id, issued.refresh)
    ensures !HasEmail(s, req.email) ==>
      && |out.store.users| == |s.users| + 1
      && exists id ::
        && AddedAt(s, out.store, id, GoogleUser(req).(refreshToken := Some(issued.refresh)))
        && out.store.users[id].email == req.email
        && out.store.users[id].password == ""
        && out.store.users[id].role == (if req.role == "" then "User" else req.role)
        && out.store.users[id].refreshToken == Some(issued.refresh)
        && out.reply == Some(Reply(OK, Profile(id, GoogleUser(req), issued)))
  {
    Catch(GoogleLoginTry(Ctx(s, None), req, issued))
  }

  // --------------------------------------------------------------- whoami

  /** The refresh branch, entered only when the access token has expired. */
  function RenewTry(c: Ctx, req: WhoamiBody, secrets: Secrets, verify: Verifier, issued: TokenPair): Flow {
    match VerifyToken(verify, req.refreshToken, secrets.refresh)
    case Expired => Reject(c, Reply(UNAUTHORIZED, Message(MsgRefreshExpired)))
    case Invalid => Reject(c, Reply(UNAUTHORIZED, Message(MsgRefreshInvalid)))
    case Valid(claims) =>
      var session := HoldsSession(c.store, claims.id, req.refreshToken);
      var c :- SendIf(!session, c, Reply(NOT_FOUND, Message(MsgNoSession)));
      if !session then
        Raised(c, NullDereference)  // `user.id` on a null user
      else
        var c :- StoreRefreshToken(c, claims.id, issued.refresh);
        Send(c, Reply(OK, Renewed(issued)))
  }

  function WhoamiTry(c: Ctx, req: WhoamiBody, secrets: Secrets, verify: Verifier, issued: TokenPair): Flow {
    var c :- SendIf(!Present(req.accessToken) || !Present(req.refreshToken), c,
                    Reply(UNAUTHORIZED, Message(MsgNoTokens)));
    // The inner try: verify the access token and reply with its claims.
    var inner :=
      match VerifyToken(verify, req.accessToken, secrets.access)
      case Valid(claims) => Send(c, Reply(OK, Identity(MsgTokenValid, claims)))
      case Expired => Raised(c, TokenExpiredError)
      case Invalid => Raised(c, JsonWebTokenError);
    // The inner catch.
    match inner
    case Raised(c, e) =>
      if e == TokenExpiredError then RenewTry(c, req, secrets, verify, issued)
      else Send(c, Reply(UNAUTHORIZED, Message(MsgAccessInvalid)))
    case _ => inner
  }

  /**
   * POST /whoami. Missing tokens get 401 and the store is untouched, but an
   * exception leaves the handler. A valid access token gets 200 with its
   * claims, without the store. Any other access failure than expiry gets 401. After expiry the refresh token is
   * checked: expired or invalid gets 401 and an immediate return; valid gets
   * 404 unless the decoded user holds exactly that refresh token, in which
   * case the new pair is stored on that user and returned.
   */
  function Whoami(s: ValidStore, req: WhoamiBody, secrets: Secrets, verify: Verifier, issued: TokenPair): (out: Outcome)
    ensures !Present(req.accessToken) || !Present(req.refreshToken) ==>
      out == Outcome(Some(Reply(UNAUTHORIZED, Message(MsgNoTokens))), s, true)
    ensures Present(req.accessToken) && Present(req.refreshToken) ==>
      var access := verify(req.accessToken, secrets.access);
      var refresh := verify(req.refreshToken, secrets.refresh);
      && (access.Valid? ==> out == Outcome(Some(Reply(OK, Identity(MsgTokenValid, access.claims))), s, false))
      && (access.Invalid? ==> out == Outcome(Some(Reply(UNAUTHORIZED, Message(MsgAccessInvalid))), s, false))
      && (access.Expired? && refresh.Expired? ==>
            out == Outcome(Some(Reply(UNAUTHORIZED, Message(MsgRefreshExpired))), s, false))
      && (access.Expired? && refresh.Invalid? ==>
            out == Outcome(Some(Reply(UNAUTHORIZED, Message(MsgRefreshInvalid))), s, false))
      && (access.Expired? && refresh.Valid? && !HoldsSession(s, refresh.claims.id, req.refreshToken) ==>
            out == Outcome(Some(Reply(NOT_FOUND, Message(MsgNoSession))), s, true))
      && (access.Expired? && refresh.Valid? && HoldsSession(s, refresh.claims.id, req.refreshToken) ==>
            && out.reply == Some(Reply(OK, Renewed(issued)))
            && Rotated(s, out.store, refresh.claims.id, issued.refresh)
            && !out.escaped)
  {
    Catch(WhoamiTry(Ctx(s, None), req, secrets, verify, issued))
  }
}
