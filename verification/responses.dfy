/**
 * The part of Express's response object the handlers depend on, and the
 * exceptions that travel through their try/catch blocks.
 *
 * A response can be sent once. `res.status(..).json(..)` on a response that
 * was already sent throws, so a handler that sends an error reply and carries
 * on raises at its next send; its catch block then tries to send a 500 reply,
 * which throws again and leaves the handler. The client sees only the first reply.
 */
module Responses {
  import opened Wrappers
  import opened UserStore
  import opened Tokens

  const OK: nat := 200
  const BAD_REQUEST: nat := 400
  const UNAUTHORIZED: nat := 401
  const NOT_FOUND: nat := 404
  const CONFLICT: nat := 409
  const INTERNAL_SERVER_ERROR: nat := 500

  /** The exceptions a handler body can raise. */
  datatype Exn =
    | TokenExpiredError    // jwt.verify, token past its expiry
    | JsonWebTokenError    // jwt.verify, any other failure
    | HeadersSent          // a second send on the same response
    | NullDereference      // a property read on a missing record
    | StoreError           // the database client rejected a create or update

  /** The JSON body of a reply, up to the exact field set. */
  datatype Body =
    | Message(text: string)
    | Profile(id: UserId, user: User, tokens: TokenPair)  // the record as read, plus the issued pair
    | Identity(message: string, claims: Claims)
    | Renewed(tokens: TokenPair)
    | Created(text: string)
    | ServerError(cause: Exn)

  datatype Reply = Reply(status: nat, body: Body)

  /** The state a handler body threads: the store and the reply sent so far. */
  datatype Ctx = Ctx(store: ValidStore, sent: Option<Reply>)

  /**
   * How a block of handler code ends: by running off its end, by `return`,
   * or by raising. `:-` continues only after normal completion.
   */
  datatype Flow = Normal(ctx: Ctx) | Returned(ctx: Ctx) | Raised(ctx: Ctx, error: Exn) {
    predicate IsFailure() {
      !Normal?
    }

    function PropagateFailure(): Flow
      requires IsFailure()
    {
      this
    }

    function Extract(): Ctx
      requires Normal?
    {
      ctx
    }
  }

  /**
   * What one request leaves behind: the first reply sent (the one the client
   * sees), the store, and whether an exception escaped the handler.
   */
  datatype Outcome = Outcome(reply: Option<Reply>, store: ValidStore, escaped: bool)

  /** `res.status(r.status).json(r.body)`. */
  function Send(c: Ctx, r: Reply): Flow {
    if c.sent.None? then Normal(c.(sent := Some(r))) else Raised(c, HeadersSent)
  }

  /** `if (cond) { res.status(..).json(..) }` with no `return`: execution carries on. */
  function SendIf(cond: bool, c: Ctx, r: Reply): Flow {
    if cond then Send(c, r) else Normal(c)
  }

  /** `res.status(..).json(..); return;` */
  function Reject(c: Ctx, r: Reply): Flow {
    var c :- Send(c, r);
    Returned(c)
  }

  /** `update({ where: { id }, data: { refreshToken } })` inside a handler. */
  function StoreRefreshToken(c: Ctx, id: UserId, token: string): Flow {
    match SetRefreshToken(c.store, id, token)
    case Some(s) => Normal(c.(store := s))
    case None => Raised(c, StoreError)
  }

  /**
   * The handler's outer `catch`: send a 500 reply carrying the error. When a
   * reply was already sent that send throws too, and the exception leaves the
   * handler with the first reply and the store as they were.
   */
  function Catch(f: Flow): (out: Outcome)
    ensures f.ctx.sent.Some? ==> out.reply == f.ctx.sent
    ensures f.ctx.sent.None? ==> out.reply == (if f.Raised? then Some(Reply(INTERNAL_SERVER_ERROR, ServerError(f.error))) else None)
    ensures out.store == f.ctx.store
    ensures out.escaped <==> f.Raised? && f.ctx.sent.Some?
  {
    match f
    case Normal(c) => Outcome(c.sent, c.store, false)
    case Returned(c) => Outcome(c.sent, c.store, false)
    case Raised(c, e) =>
      match Send(c, Reply(INTERNAL_SERVER_ERROR, ServerError(e)))
      case Normal(c') => Outcome(c'.sent, c'.store, false)
      case _ => Outcome(c.sent, c.store, true)
  }
}
