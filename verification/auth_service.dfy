/** The authentication service: registration, login and the password check,
    over the user store. */
module Auth {
  import opened Common
  import opened UserEntity
  import opened CreateUserValidation
  import opened Crypto
  import opened Users
  import opened Jwt

  datatype LoginDto = LoginDto(email: string, password: string)

  /** The `{ user, access_token }` object `register` and `login` return. */
  datatype AuthResult = AuthResult(user: Loaded, accessToken: Token)

  /** The one error every failed login reports. */
  const InvalidCredentials: Error := Unauthorized("Invalid credentials")

  /** Some live account with this email may log in with this password. */
  predicate CanLogIn(rows: Rows, email: string, password: string, hasher: Hasher) {
    exists k :: k in rows && Authenticatable(rows[k]) && rows[k].email == email
      && hasher.compare(password, rows[k].passwordHash)
  }

  /** `login(dto)`: look the email up, refuse an inactive or deleted account,
      compare the password, then sign `{ sub, email }` and return the account
      without its hash. Nothing is written. */
  function Login(rows: Rows, dto: LoginDto, hasher: Hasher, now: Time, expiresIn: nat): (r: Result<AuthResult>)
    requires TableConstraints(rows)
    ensures r.Err? ==> r.error == InvalidCredentials
    ensures r.Ok? <==> CanLogIn(rows, dto.email, dto.password, hasher)
    ensures r.Ok? ==> r.value.user.row.id in rows && rows[r.value.user.row.id] == r.value.user.row
    ensures r.Ok? ==> r.value.user.row.email == dto.email
    ensures r.Ok? ==> r.value.user.selected == AllColumns - {"password_hash"}
    ensures r.Ok? ==> r.value.accessToken == Sign(JwtPayload(r.value.user.row.id, dto.email), now, expiresIn)
  {
    match FindByEmail(rows, dto.email)
    case None => Err(InvalidCredentials)
    case Some(user) =>
      if user.row.status != UserStatus.Active || DeletedAtProperty(user) != Null then Err(InvalidCredentials)
      else if !hasher.compare(dto.password, user.row.passwordHash) then Err(InvalidCredentials)
      else
        var payload := JwtPayload(user.row.id, user.row.email);
        Ok(AuthResult(OmitPasswordHash(user), Sign(payload, now, expiresIn)))
  }

  /** `validateUser(email, password)`: the live account holding this email,
      without its hash, when the password matches; its status is not looked at. */
  function ValidateUser(rows: Rows, email: string, password: string, hasher: Hasher): (r: Option<Loaded>)
    requires TableConstraints(rows)
    ensures r.Some? <==> exists k :: k in rows && Live(rows[k]) && rows[k].email == email
                                    && hasher.compare(password, rows[k].passwordHash)
    ensures r.Some? ==> r.value.row.id in rows && rows[r.value.row.id] == r.value.row
    ensures r.Some? ==> r.value.row.email == email && "password_hash" !in r.value.selected
  {
    match FindByEmail(rows, email)
    case None => None
    case Some(user) =>
      if hasher.compare(password, user.row.passwordHash) then Some(OmitPasswordHash(user)) else None
  }

  /** Unlike `login`, `validateUser` accepts a suspended or blocked account
      whose password matches. */
  lemma ValidateUserIgnoresStatus(rows: Rows, id: Id, password: string, hasher: Hasher, now: Time, expiresIn: nat)
    requires TableConstraints(rows) && id in rows
    requires Live(rows[id]) && rows[id].status != UserStatus.Active
    requires hasher.compare(password, rows[id].passwordHash)
    ensures ValidateUser(rows, rows[id].email, password, hasher).Some?
    ensures Login(rows, LoginDto(rows[id].email, password), hasher, now, expiresIn) == Err(InvalidCredentials)
  {
  }

  /** An account inserted by `create` logs in with the password it was
      registered with, whenever the hash function is sound. */
  lemma LoginWithRegisteredPassword(rows: Rows, id: Id, name: string, email: string, password: string,
                                    hasher: Hasher, created: Time, now: Time, expiresIn: nat)
    requires TableConstraints(rows) && Sound(hasher)
    requires id in rows && rows[id] == NewUser(id, name, email, hasher.hash(password), created)
    ensures Login(rows, LoginDto(email, password), hasher, now, expiresIn).Ok?
    ensures Login(rows, LoginDto(email, password), hasher, now, expiresIn).value.user.row == rows[id]
  {
    assert hasher.compare(password, hasher.hash(password));
    assert CanLogIn(rows, email, password, hasher);
  }

  /** How `register` reports a failure of `create`: a Conflict goes through
      unchanged, anything else becomes a Conflict of its own. */
  function RegistrationFailure(e: Error): (f: Error)
    ensures f.Conflict?
    ensures e.Conflict? ==> f == e
    ensures !e.Conflict? ==> f == Conflict("Registration failed")
  {
    if e.Conflict? then e else Conflict("Registration failed")
  }

  /** `register(dto)`: `create`, then sign `{ sub, email }` for the new account. */
  method Register(users: UsersService, dto: CreateUserDto, hasher: Hasher, now: Time, expiresIn: nat)
    returns (r: Result<AuthResult>)
    requires users.Valid()
    modifies users
    ensures users.Valid()
    ensures r.Err? ==> r.error.Conflict? && users.rows == old(users.rows)
    ensures LiveEmail(old(users.rows), dto.email) ==> r == Err(Conflict("Email already exists"))
    ensures !LiveEmail(old(users.rows), dto.email) && EmailInUse(old(users.rows), dto.email) ==>
      r == Err(Conflict("Registration failed"))
    ensures r.Ok? <==> (&& !LiveEmail(old(users.rows), dto.email)
                        && Varchar(dto.name, 150).Some? && Varchar(dto.email, 150).Some?
                        && !EmailInUse(old(users.rows), Varchar(dto.email, 150).value))
    ensures r.Ok? ==> var u := r.value.user.row;
      && u.id !in old(users.rows) && u == NewUser(u.id, dto.name, dto.email, hasher.hash(dto.password), now)
      && users.rows == old(users.rows)[u.id := NewUser(u.id, Varchar(dto.name, 150).value,
                                                       Varchar(dto.email, 150).value, u.passwordHash, now)]
      && r.value.accessToken == Sign(JwtPayload(u.id, dto.email), now, expiresIn)
  {
    var created := users.Create(dto, hasher, now);
    match created
    case Err(e) =>
      assert e.Conflict? ==> e == Conflict("Email already exists");
      r := Err(RegistrationFailure(e));
    case Ok(user) =>
      var payload := JwtPayload(user.id, user.email);
      r := Ok(AuthResult(Loaded(user, AllColumns), Sign(payload, now, expiresIn)));
  }

  /** Registering and then logging in with the same email and password
      succeeds and reaches the row registration stored, with the same claims,
      exactly when the email fits its column as sent; an email the column
      had to cut is stored shorter, and logging in with it as sent fails. */
  method RegisterThenLogin(users: UsersService, dto: CreateUserDto, hasher: Hasher,
                           registeredAt: Time, now: Time, expiresIn: nat)
    returns (registered: Result<AuthResult>, loggedIn: Result<AuthResult>)
    requires users.Valid() && Sound(hasher)
    modifies users
    ensures registered.Ok? ==> (loggedIn.Ok? <==> |dto.email| <= 150)
    ensures registered.Ok? && loggedIn.Ok? ==>
      registered.value.user.row.id in users.rows && loggedIn.value.user.row == users.rows[registered.value.user.row.id]
    ensures registered.Ok? && loggedIn.Ok? ==> loggedIn.value.accessToken.payload == registered.value.accessToken.payload
  {
    registered := Register(users, dto, hasher, registeredAt, expiresIn);
    loggedIn := Login(users.rows, LoginDto(dto.email, dto.password), hasher, now, expiresIn);
    if registered.Ok? {
      var u := registered.value.user.row;
      if |dto.email| <= 150 {
        LoginWithRegisteredPassword(users.rows, u.id, Varchar(dto.name, 150).value, dto.email, dto.password,
                                    hasher, registeredAt, now, expiresIn);
      } else {
        assert !LiveEmail(users.rows, dto.email);
      }
    }
  }
}
