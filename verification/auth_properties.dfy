/**
 * Properties that relate several requests: the session protocol across
 * login and whoami, the upsert behaviour of Google login, email uniqueness
 * across registrations, and the consequences of the missing early returns.
 */
module AuthProperties {
  import opened Wrappers
  import opened UserStore
  import opened Tokens
  import opened Responses
  import opened AuthCollection
  import AuthCorrected

  /** A whoami body whose access token has expired and whose refresh token decodes to `id`. */
  predicate ExpiredAccessFor(req: WhoamiBody, secrets: Secrets, verify: Verifier, id: UserId) {
    && Present(req.accessToken) && Present(req.refreshToken)
    && verify(req.accessToken, secrets.access) == Expired
    && verify(req.refreshToken, secrets.refresh) == Valid(Claims(id))
  }

  /**
   * A valid access token is answered from its claims alone: the store is
   * neither consulted nor changed.
   */
  lemma ValidAccessIgnoresStore(s1: ValidStore, s2: ValidStore, req: WhoamiBody, secrets: Secrets,
                                verify: Verifier, issued1: TokenPair, issued2: TokenPair)
    requires Present(req.accessToken) && Present(req.refreshToken)
    requires verify(req.accessToken, secrets.access).Valid?
    ensures Whoami(s1, req, secrets, verify, issued1).reply == Whoami(s2, req, secrets, verify, issued2).reply
    ensures Whoami(s1, req, secrets, verify, issued1).store == s1
  {
  }

  /**
   * Renewal rotates the session: once a refresh token has been exchanged for
   * a new pair with a different refresh token, presenting the old one again
   * is answered 404, even though it still verifies.
   */
  lemma RenewalRevokesOldRefreshToken(s: ValidStore, req: WhoamiBody, secrets: Secrets, verify: Verifier,
                                      id: UserId, issued: TokenPair, later: TokenPair)
    requires ExpiredAccessFor(req, secrets, verify, id)
    requires HoldsSession(s, id, req.refreshToken)
    requires issued.refresh != req.refreshToken
    ensures var first := Whoami(s, req, secrets, verify, issued);
      && first.reply == Some(Reply(OK, Renewed(issued)))
      && HoldsSession(first.store, id, issued.refresh)
      && Whoami(first.store, req, secrets, verify, later) == Outcome(Some(Reply(NOT_FOUND, Message(MsgNoSession))), first.store, true)
  {
  }

  /**
   * The refresh token handed out by a successful login is the one whoami
   * accepts: once the access token expires, it renews the session.
   */
  lemma LoginThenRenew(s: ValidStore, id: UserId, password: string, crypto: Crypto, issued: TokenPair,
                       secrets: Secrets, verify: Verifier, renewed: TokenPair, accessToken: string)
    requires id in s.users && crypto.matches(password, s.users[id].password)
    requires ExpiredAccessFor(WhoamiBody(accessToken, issued.refresh), secrets, verify, id)
    ensures var login := Login(s, LoginBody(s.users[id].email, password), crypto, issued);
      && login.reply == Some(Reply(OK, Profile(id, s.users[id], issued)))
      && var renew := Whoami(login.store, WhoamiBody(accessToken, issued.refresh), secrets, verify, renewed);
         renew.reply == Some(Reply(OK, Renewed(renewed))) && HoldsSession(renew.store, id, renewed.refresh)
  {
  }

  /**
   * Google login is idempotent on email: a second call with the same body
   * finds the record the first one used or created, answers with the same id
   * and adds no record.
   */
  lemma GoogleLoginIdempotent(s: ValidStore, req: GoogleBody, issued1: TokenPair, issued2: TokenPair)
    ensures var first := GoogleLogin(s, req, issued1);
      var second := GoogleLogin(first.store, req, issued2);
      && first.reply.value.body.Profile? && second.reply.value.body.Profile?
      && first.reply.value.body.id == second.reply.value.body.id
      && second.store.users.Keys == first.store.users.Keys
      && |first.store.users| <= |s.users| + 1
  {
  }

  /**
   * Registering an email twice: the second request is answered 409 and
   * leaves the store exactly as the first left it, so at most one record
   * ever carries the email.
   */
  lemma RegisterTwice(s: ValidStore, req: RegisterBody, again: RegisterBody, crypto: Crypto)
    requires again.email == req.email
    ensures var first := Register(s, req, crypto);
      var second := Register(first.store, again, crypto);
      && second.reply == Some(Reply(CONFLICT, Message(MsgEmailTaken)))
      && second.store == first.store
      && forall i, j ::
           (i in second.store.users && j in second.store.users &&
            second.store.users[i].email == req.email && second.store.users[j].email == req.email) ==> i == j
  {
  }

  /**
   * A concrete run: register, register again, log in with the right and with
   * a wrong password.
   */
  lemma RegisterLoginScenario(issued1: TokenPair, issued2: TokenPair)
    ensures
      var crypto := Crypto(p => "$2b$10$" + p, (p, h) => h == "$2b$10$" + p);
      var body := RegisterBody("u1", "a@x.com", "password1", "User One", "Customer", "0123456789");
      var r1 := Register(Empty, body, crypto);
      var r2 := Register(r1.store, body, crypto);
      var l1 := Login(r2.store, LoginBody("a@x.com", "password1"), crypto, issued1);
      var l2 := Login(l1.store, LoginBody("a@x.com", "wrong"), crypto, issued2);
      && r1.reply == Some(Reply(OK, Created(MsgUserCreated)))
      && r2.reply == Some(Reply(CONFLICT, Message(MsgEmailTaken)))
      && l1.reply.value.status == OK
      && l2.reply == Some(Reply(BAD_REQUEST, Message(MsgPasswordMismatch)))
  {
  }

  /**
   * A failed login ends the victim's session: anyone who knows an account's
   * email can, with a wrong password, replace its stored refresh token, after
   * which the account holder's own refresh token is answered 404.
   */
  lemma FailedLoginEndsSession(s: ValidStore, id: UserId, guess: string, crypto: Crypto, issued: TokenPair,
                               req: WhoamiBody, secrets: Secrets, verify: Verifier, renewed: TokenPair)
    requires id in s.users && !crypto.matches(guess, s.users[id].password)
    requires HoldsSession(s, id, req.refreshToken) && issued.refresh != req.refreshToken
    requires ExpiredAccessFor(req, secrets, verify, id)
    ensures var attempt := Login(s, LoginBody(s.users[id].email, guess), crypto, issued);
      && attempt.reply == Some(Reply(BAD_REQUEST, Message(MsgPasswordMismatch)))
      && Whoami(attempt.store, req, secrets, verify, renewed).reply == Some(Reply(NOT_FOUND, Message(MsgNoSession)))
  {
  }

  /** With the early return, the same failed login leaves the session usable. */
  lemma CorrectedFailedLoginKeepsSession(s: ValidStore, id: UserId, guess: string, crypto: Crypto, issued: TokenPair,
                                         req: WhoamiBody, secrets: Secrets, verify: Verifier, renewed: TokenPair)
    requires id in s.users && !crypto.matches(guess, s.users[id].password)
    requires HoldsSession(s, id, req.refreshToken)
    requires ExpiredAccessFor(req, secrets, verify, id)
    ensures var attempt := AuthCorrected.Login(s, LoginBody(s.users[id].email, guess), crypto, issued);
      && attempt.reply == Some(Reply(BAD_REQUEST, Message(MsgPasswordMismatch)))
      && attempt.store == s
      && AuthCorrected.Whoami(attempt.store, req, secrets, verify, renewed).reply == Some(Reply(OK, Renewed(renewed)))
  {
  }

  /**
   * Every error branch that sends a reply without returning ends with an
   * exception leaving the handler: the next send throws, and so does the
   * catch block's attempt to send a 500 reply.
   */
  lemma FallThroughEscapes(s: ValidStore, crypto: Crypto, login: LoginBody, register: RegisterBody,
                           req: WhoamiBody, secrets: Secrets, verify: Verifier, issued: TokenPair)
    ensures !HasEmail(s, login.email) ==> Login(s, login, crypto, issued).escaped
    ensures (exists id :: id in s.users && s.users[id].email == login.email && !crypto.matches(login.password, s.users[id].password))
            ==> Login(s, login, crypto, issued).escaped
    ensures HasEmail(s, register.email) ==> Register(s, register, crypto).escaped
    ensures !Present(req.accessToken) || !Present(req.refreshToken) ==> Whoami(s, req, secrets, verify, issued).escaped
    ensures (exists id :: ExpiredAccessFor(req, secrets, verify, id) && !HoldsSession(s, id, req.refreshToken))
            ==> Whoami(s, req, secrets, verify, issued).escaped
  {
  }
}
