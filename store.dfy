/**
 * The mock backend's two tables (the users file and the OTPs file) as
 * in-memory sequences, the records they hold and the replies the route
 * handlers send.
 *
 * Timestamps are milliseconds since the epoch; the ISO-8601 strings the
 * backend writes are a rendering of them and compare the same way.
 */
module Store {
  import opened Wrappers

  /** A record of the users table. `role` is absent on self-registered users. */
  datatype User = User(
    id: string,
    email: string,
    password: string,  // the bcrypt hash
    name: string,
    role: Option<string>,
    createdAt: int)

  /** A user record with its `password` field removed: the only shape a reply carries. */
  datatype PublicUser = PublicUser(
    id: string,
    email: string,
    name: string,
    role: Option<string>,
    createdAt: int)

  /** `const { password, ...rest } = user`. */
  function Strip(u: User): PublicUser {
    PublicUser(u.id, u.email, u.name, u.role, u.createdAt)
  }

  /** A record of the OTPs table; `resetToken` and `verified` are written by verify-otp. */
  datatype OtpRecord = OtpRecord(
    email: string,
    otp: string,
    createdAt: int,
    expiresAt: int,
    resetToken: Option<string>,
    verified: bool)

  /** A signed token's payload: which secret signed it, for whom, and when. */
  datatype TokenKind = AccessToken | RefreshToken
  datatype Token = Token(kind: TokenKind, userId: string, issuedAt: int)

  /** What a reply does to the two cookies. */
  datatype Cookies = NoCookies | SetTokens(access: Token, refresh: Token) | ClearTokens

  /** The JSON body beyond `message`. */
  datatype Body =
    | Empty
    | OneUser(user: PublicUser)
    | UserList(users: seq<PublicUser>)
    | WithResetToken(resetToken: string)

  /** An HTTP reply; `message` is "" when the body has no message field. */
  datatype Reply = Reply(status: int, message: string, body: Body, cookies: Cookies)

  /** A reply carrying only a status and a message. */
  function Plain(status: int, message: string): Reply {
    Reply(status, message, Empty, NoCookies)
  }

  /** `generateTokens(userId)` followed by setting both cookies. */
  function IssueTokens(userId: string, now: int): (c: Cookies)
    ensures c.SetTokens? && c.access.kind == AccessToken && c.refresh.kind == RefreshToken
    ensures c.access.userId == userId && c.refresh.userId == userId
  {
    SetTokens(Token(AccessToken, userId, now), Token(RefreshToken, userId, now))
  }

  /** JavaScript truthiness of a request-body field that is a string or undefined. */
  predicate Truthy(field: Option<string>) {
    field.Some? && field.value != ""
  }

  // The callbacks handed to find/findIndex/filter/map by the handlers.

  function HasEmail(email: string): User -> bool {
    (u: User) => u.email == email
  }

  function HasId(id: string): User -> bool {
    (u: User) => u.id == id
  }

  function TakenByOther(email: string, id: string): User -> bool {
    (u: User) => u.email == email && u.id != id
  }

  function OtpFor(email: string): OtpRecord -> bool {
    (o: OtpRecord) => o.email == email
  }

  function NotOtpFor(email: string): OtpRecord -> bool {
    (o: OtpRecord) => o.email != email
  }

  function OtpMatches(email: string, otp: string): OtpRecord -> bool {
    (o: OtpRecord) => o.email == email && o.otp == otp
  }

  function ResetMatches(email: string, resetToken: string): OtpRecord -> bool {
    (o: OtpRecord) => o.email == email && o.resetToken == Some(resetToken) && o.verified
  }

  // Table invariants.

  ghost predicate UniqueEmails(users: seq<User>) {
    forall i, j :: 0 <= i < j < |users| ==> users[i].email != users[j].email
  }

  ghost predicate UniqueIds(users: seq<User>) {
    forall i, j :: 0 <= i < j < |users| ==> users[i].id != users[j].id
  }

  ghost predicate OneOtpPerEmail(otps: seq<OtpRecord>) {
    forall i, j :: 0 <= i < j < |otps| ==> otps[i].email != otps[j].email
  }

  /** The two JSON files. */
  class Db {
    var users: seq<User>
    var otps: seq<OtpRecord>

    constructor (users: seq<User>, otps: seq<OtpRecord>)
      ensures this.users == users && this.otps == otps
    {
      this.users := users;
      this.otps := otps;
    }
  }
}
