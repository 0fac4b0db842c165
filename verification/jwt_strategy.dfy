/** The access token's claims and the check the JWT strategy makes on every
    authenticated request: the token has not expired and its subject is still
    an active, undeleted account. */
module Jwt {
  import opened Common
  import opened UserEntity
  import opened Users

  /** The claims the services sign. */
  datatype JwtPayload = JwtPayload(sub: Id, email: string)

  /** A signed token, by its claims: the payload plus the registered `iat` and
      `exp` claims, both in whole seconds. The signature is not modelled. */
  datatype Token = Token(payload: JwtPayload, iat: int, exp: int)

  /** Whole seconds since the epoch, as the token library reads the clock. */
  function Seconds(now: Time): int {
    now / 1000
  }

  /** `jwtService.sign(payload)` at time `now`, with the module's `expiresIn`
      given in seconds. */
  function Sign(payload: JwtPayload, now: Time, expiresIn: nat): (t: Token)
    ensures t.payload == payload
    ensures t.exp - t.iat == expiresIn
    ensures t.iat * 1000 <= now < t.iat * 1000 + 1000
  {
    Token(payload, Seconds(now), Seconds(now) + expiresIn)
  }

  /** With `ignoreExpiration: false` a token is refused once the clock, in
      whole seconds, has reached its `exp`. */
  function Expired(t: Token, now: Time): (b: bool)
    ensures b <==> now >= t.exp * 1000
  {
    Seconds(now) >= t.exp
  }

  /** A token lives between `expiresIn - 1` and `expiresIn` seconds: it is
      honoured up to `(expiresIn - 1) * 1000` ms after signing and refused from
      `expiresIn * 1000` ms after signing. */
  lemma TokenLifetime(payload: JwtPayload, issued: Time, expiresIn: nat, now: Time)
    requires issued <= now
    ensures now - issued <= (expiresIn - 1) * 1000 ==> !Expired(Sign(payload, issued, expiresIn), now)
    ensures now - issued >= expiresIn * 1000 ==> Expired(Sign(payload, issued, expiresIn), now)
  {
    var t := Sign(payload, issued, expiresIn);
    if now - issued <= (expiresIn - 1) * 1000 {
      assert now < (t.iat + expiresIn) * 1000;
      assert Seconds(now) < t.exp;
    }
    if now - issued >= expiresIn * 1000 {
      assert now >= (t.iat + expiresIn) * 1000;
      assert Seconds(now) >= t.exp;
    }
  }

  /** `new UnauthorizedException()`, whose message defaults to the status text. */
  const Rejected: Error := Unauthorized("Unauthorized")

  /** `validate(payload)` as written: the strict `deleted_at !== null` is made
      on the entity `findOne` returns, which never selects `deleted_at`, so the
      property is `undefined` on it and the test always holds. */
  function ValidateAsWritten(rows: Rows, payload: JwtPayload): (r: Result<Loaded>)
    ensures FindOne(rows, payload.sub).Err? ==> r == Err(NotFound)
    ensures FindOne(rows, payload.sub).Ok? ==> r == Err(Rejected)
  {
    match FindOne(rows, payload.sub)
    case Err(e) => Err(e)
    case Ok(user) =>
      if user.row.status != UserStatus.Active || DeletedAtProperty(user) != Null then Err(Rejected)
      else Ok(user)
  }

  /** The input that shows it: the account `create` has just inserted is
      active and live, and its own token's claims are still refused. */
  lemma ValidateAsWrittenRejectsNewAccount(id: Id, name: string, email: string, hash: string, now: Time)
    ensures Authenticatable(NewUser(id, name, email, hash, now))
    ensures ValidateAsWritten(map[id := NewUser(id, name, email, hash, now)], JwtPayload(id, email)) == Err(Rejected)
  {
    var rows := map[id := NewUser(id, name, email, hash, now)];
    assert FindOne(rows, id).Ok?;
  }

  /** `validate(payload)` with the deletion test as evidently intended: a
      loaded `deleted_at` that holds a date rejects the token. */
  function Validate(rows: Rows, payload: JwtPayload): (r: Result<Loaded>)
    ensures r.Ok? <==> payload.sub in rows && Authenticatable(rows[payload.sub])
    ensures FindOne(rows, payload.sub).Err? ==> r == Err(NotFound)
    ensures FindOne(rows, payload.sub).Ok? && r.Err? ==> r.error == Rejected
    ensures r.Ok? ==> r == FindOne(rows, payload.sub)
  {
    match FindOne(rows, payload.sub)
    case Err(e) => Err(e)
    case Ok(user) =>
      if user.row.status != UserStatus.Active || DeletedAtProperty(user).Defined? then Err(Rejected)
      else Ok(user)
  }

  /** The strategy accepts exactly the subjects `isActiveUser` accepts. */
  lemma ValidateAgreesWithIsActiveUser(rows: Rows, payload: JwtPayload)
    ensures Validate(rows, payload).Ok? <==> IsActiveUser(rows, payload.sub)
  {
  }

  /** A request bearing `token` at time `now` as the strategy is written: the
      expiry check, then `validate` as written. No request gets through. */
  function AuthenticateAsWritten(rows: Rows, token: Token, now: Time): (r: Result<Loaded>)
    ensures r.Err?
    ensures Expired(token, now) || FindOne(rows, token.payload.sub).Ok? ==> r == Err(Rejected)
    ensures !Expired(token, now) && FindOne(rows, token.payload.sub).Err? ==> r == Err(NotFound)
  {
    if Expired(token, now) then Err(Rejected) else ValidateAsWritten(rows, token.payload)
  }

  /** A request bearing `token` at time `now`, with the corrected `validate`:
      the expiry check, then the re-check of the subject. */
  function Authenticate(rows: Rows, token: Token, now: Time): (r: Result<Loaded>)
    ensures r.Ok? <==> !Expired(token, now) && IsActiveUser(rows, token.payload.sub)
    ensures Expired(token, now) ==> r == Err(Rejected)
    ensures r.Ok? ==> r.value.row == rows[token.payload.sub]
  {
    if Expired(token, now) then Err(Rejected) else Validate(rows, token.payload)
  }

  /** A token issued before `remove` is refused afterwards, expired or not. */
  lemma RemovedAccountTokenRefused(rows: Rows, token: Token, removedAt: Time, now: Time)
    requires token.payload.sub in rows
    ensures var id := token.payload.sub;
      Authenticate(rows[id := Apply(rows[id], SoftDeletePatch(removedAt), removedAt)], token, now).Err?
  {
  }

  /** With the corrected `validate`, a token `register` or `login` has just
      issued for an authenticatable account is honoured at once when it lives
      at least one second; as written, the same request is refused. */
  lemma FreshTokenAccepted(rows: Rows, id: Id, email: string, now: Time, expiresIn: nat)
    requires id in rows && Authenticatable(rows[id]) && expiresIn >= 1
    ensures Authenticate(rows, Sign(JwtPayload(id, email), now, expiresIn), now).Ok?
    ensures AuthenticateAsWritten(rows, Sign(JwtPayload(id, email), now, expiresIn), now) == Err(Rejected)
  {
    TokenLifetime(JwtPayload(id, email), now, expiresIn, now);
  }
}
