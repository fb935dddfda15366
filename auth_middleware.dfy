/**
 * The Express authentication middleware. An `Exchange` is one request
 * together with what the middleware did to it: the `userId` it attached,
 * the responses it sent and how many times it called `next()`.
 *
 * `decoded` is what `verifyAccessToken` yields for the cookie: the payload's
 * user id, or None when the token is expired, malformed or badly signed.
 */
module AuthMiddleware {
  import opened Wrappers
  import opened Store

  class Exchange {
    const accessToken: Option<string>  // req.cookies.accessToken
    var userId: Option<string>         // req.userId
    var responses: seq<Reply>          // what was sent with res.status(..).json(..)
    var nextCalls: nat                 // how many times next() was called

    constructor (accessToken: Option<string>, userId: Option<string>)
      ensures this.accessToken == accessToken && this.userId == userId
      ensures responses == [] && nextCalls == 0
    {
      this.accessToken := accessToken;
      this.userId := userId;
      responses := [];
      nextCalls := 0;
    }
  }

  /** `authenticate`: a 401 without `next()`, or `userId` set and exactly one `next()`. */
  method Authenticate(ex: Exchange, decoded: Option<string>)
    modifies ex
    ensures !Truthy(ex.accessToken) ==>
      ex.responses == old(ex.responses) + [Plain(401, "Authentication required")] &&
      ex.nextCalls == old(ex.nextCalls) && ex.userId == old(ex.userId)
    ensures Truthy(ex.accessToken) && decoded.None? ==>
      ex.responses == old(ex.responses) + [Plain(401, "Invalid or expired token")] &&
      ex.nextCalls == old(ex.nextCalls) && ex.userId == old(ex.userId)
    ensures Truthy(ex.accessToken) && decoded.Some? ==>
      ex.responses == old(ex.responses) &&
      ex.nextCalls == old(ex.nextCalls) + 1 && ex.userId == decoded
    ensures ex.nextCalls == old(ex.nextCalls) + 1 <==> |ex.responses| == |old(ex.responses)|
  {
    if !Truthy(ex.accessToken) {
      ex.responses := ex.responses + [Plain(401, "Authentication required")];
      return;
    }
    if decoded.None? {
      ex.responses := ex.responses + [Plain(401, "Invalid or expired token")];
      return;
    }
    ex.userId := decoded;
    ex.nextCalls := ex.nextCalls + 1;
  }

  /** `optionalAuth`: never responds, always calls `next()` once, sets `userId` only from a good token. */
  method OptionalAuth(ex: Exchange, decoded: Option<string>)
    modifies ex
    ensures ex.responses == old(ex.responses)
    ensures ex.nextCalls == old(ex.nextCalls) + 1
    ensures ex.userId == if Truthy(ex.accessToken) && decoded.Some? then decoded else old(ex.userId)
  {
    if Truthy(ex.accessToken) {
      if decoded.Some? {
        ex.userId := decoded;
      }
    }
    ex.nextCalls := ex.nextCalls + 1;
  }
}
