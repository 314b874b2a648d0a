/**
 * The handlers whose error branches fall through, rewritten so that every
 * error reply ends the handler, as the surrounding code evidently intends
 * (the refresh-token branch of whoami already does so).
 *
 * `googleLogin` has no such branch and is not repeated here.
 */
module AuthCorrected {
  import opened Wrappers
  import opened UserStore
  import opened Tokens
  import opened Responses
  import AuthCollection

  function LoginTry(c: Ctx, req: AuthCollection.LoginBody, crypto: AuthCollection.Crypto, issued: TokenPair): Flow {
    match FindByEmail(c.store, req.email)
    case None => Reject(c, Reply(NOT_FOUND, Message(AuthCollection.MsgUnknownEmail)))
    case Some(id) =>
      var u := c.store.users[id];
      if !crypto.matches(req.password, u.password) then
        Reject(c, Reply(BAD_REQUEST, Message(AuthCollection.MsgPasswordMismatch)))
      else
        AuthCollection.IssueSession(c, id, u, issued)
  }

  /**
   * POST /login with early returns. Nothing escapes; an unknown email or a
   * wrong password leaves the store as it was; a right password behaves
   * exactly as the handler as written.
   */
  function Login(s: ValidStore, req: AuthCollection.LoginBody, crypto: AuthCollection.Crypto, issued: TokenPair): (out: Outcome)
    ensures !out.escaped
    ensures !HasEmail(s, req.email) ==>
      out == Outcome(Some(Reply(NOT_FOUND, Message(AuthCollection.MsgUnknownEmail))), s, false)
    ensures forall id :: id in s.users && s.users[id].email == req.email && !crypto.matches(req.password, s.users[id].password) ==>
      out == Outcome(Some(Reply(BAD_REQUEST, Message(AuthCollection.MsgPasswordMismatch))), s, false)
    ensures forall id :: id in s.users && s.users[id].email == req.email && crypto.matches(req.password, s.users[id].password) ==>
      out == AuthCollection.Login(s, req, crypto, issued)
  {
    Catch(LoginTry(Ctx(s, None), req, crypto, issued))
  }

  function RegisterTry(c: Ctx, req: AuthCollection.RegisterBody, crypto: AuthCollection.Crypto): Flow {
    if FindByEmail(c.store, req.email).Some? then
      Reject(c, Reply(CONFLICT, Message(AuthCollection.MsgEmailTaken)))
    else
      match Create(c.store, AuthCollection.RegisteredUser(req, crypto))
      case None => Raised(c, StoreError)
      case Some((s, _)) => Send(c.(store := s), Reply(OK, Created(AuthCollection.MsgUserCreated)))
  }

  /**
   * POST /register with an early return. Nothing escapes, and the reply and
   * the store are those of the handler as written.
   */
  function Register(s: ValidStore, req: AuthCollection.RegisterBody, crypto: AuthCollection.Crypto): (out: Outcome)
    ensures !out.escaped
    ensures var written := AuthCollection.Register(s, req, crypto);
      out.reply == written.reply && out.store == written.store
  {
    Catch(RegisterTry(Ctx(s, None), req, crypto))
  }

  function WhoamiTry(c: Ctx, req: AuthCollection.WhoamiBody, secrets: Secrets, verify: Verifier, issued: TokenPair): Flow {
    if !Present(req.accessToken) || !Present(req.refreshToken) then
      Reject(c, Reply(UNAUTHORIZED, Message(AuthCollection.MsgNoTokens)))
    else
      match VerifyToken(verify, req.accessToken, secrets.access)
      case Valid(claims) => Send(c, Reply(OK, Identity(AuthCollection.MsgTokenValid, claims)))
      case Invalid => Send(c, Reply(UNAUTHORIZED, Message(AuthCollection.MsgAccessInvalid)))
      case Expired =>
        match VerifyToken(verify, req.refreshToken, secrets.refresh)
        case Expired => Reject(c, Reply(UNAUTHORIZED, Message(AuthCollection.MsgRefreshExpired)))
        case Invalid => Reject(c, Reply(UNAUTHORIZED, Message(AuthCollection.MsgRefreshInvalid)))
        case Valid(claims) =>
          if !HoldsSession(c.store, claims.id, req.refreshToken) then
            Reject(c, Reply(NOT_FOUND, Message(AuthCollection.MsgNoSession)))
          else
            var c :- StoreRefreshToken(c, claims.id, issued.refresh);
            Send(c, Reply(OK, Renewed(issued)))
  }

  /**
   * POST /whoami with early returns. Nothing escapes, and the reply and the
   * store are those of the handler as written: its fall-through branches
   * change what leaves the handler, not what the client or the store sees.
   */
  function Whoami(s: ValidStore, req: AuthCollection.WhoamiBody, secrets: Secrets, verify: Verifier, issued: TokenPair): (out: Outcome)
    ensures !out.escaped
    ensures var written := AuthCollection.Whoami(s, req, secrets, verify, issued);
      out.reply == written.reply && out.store == written.store
  {
    Catch(WhoamiTry(Ctx(s, None), req, secrets, verify, issued))
  }
}
