# Account and session core of the SJJ API, in Dafny

This project models the account layer of a NestJS API for a multi-tenant SaaS
product. It covers:

- the `users` table: its enums, jsonb documents, column defaults, `varchar`
  limits, UNIQUE indexes and soft-delete column;
- the user service: create, look up, update, soft-delete, restore, the
  "is active" check and the profile-completeness score;
- the authentication service: register, login and the password check;
- the JWT strategy that re-checks the account on every request;
- the validation decorators of the registration and profile-update payloads.

The table is a `map<Id, User>`, held by the class `Users.UsersService` and
changed in place by its methods. Time is an integer clock in milliseconds,
passed in as `now`. Two facts about the ORM shape the whole model:

- **Lookups.** Repository lookups hide soft-deleted rows (`deleted_at` is a
  `DeleteDateColumn`). `FindOne`, `FindByEmail` and `FindByCpfCnpj` only see
  rows with `Live(u)`. The raw UPDATE in `restore` sees every row.
- **Writes.** Every write goes through `Save`, which plays the database. It
  assigns each `varchar(n)` column as PostgreSQL does: a longer value is cut
  to `n` characters when the excess is all spaces and refused otherwise
  (`UserEntity.Varchar`). It then refuses a duplicate email or cpf_cnpj
  against any row, soft-deleted or not, comparing the values as stored. An ORM `update` always stamps
  `updated_at`, because that column is an `UpdateDateColumn`.

An entity handed back by a query is a `Loaded(row, selected)`. The columns
outside `selected` are `undefined` on the object. This is what makes the
finding below visible.

Modules, one file each:

| module | file |
|---|---|
| `Common` | common.dfy |
| `UserEntity` | user_entity.dfy |
| `ClassValidator` | class_validator.dfy |
| `CreateUserValidation` | create_user_dto.dfy |
| `UpdateProfileValidation` | update_profile_dto.dfy |
| `Crypto` | crypto.dfy |
| `Completeness` | profile_completeness.dfy |
| `Users` | users_service.dfy |
| `Jwt` | jwt_strategy.dfy |
| `Auth` | auth_service.dfy |

Some of the code's behaviour differs from what an account lifecycle would
usually promise. The model follows the code:

- **`remove` on a removed account.** It fails with NotFound, because its
  `findOne` no longer sees the row. It is not an idempotent no-op.
- **`restore` on a never-removed account.** It succeeds and sets the account
  ACTIVE, even when it was SUSPENDED. Only a key with no row at all gives
  NotFound.
- **Documents in the completeness score.** A jsonb document, even an empty
  one, counts as filled in. The score uses JavaScript truthiness.
- **`updateProfile` has no uniqueness check.** Only `update` checks email and
  cpf_cnpj in advance. For `updateProfile` a duplicate is stopped by the
  database, and the error is a query failure rather than a Conflict.
- **Soft-deleted accounts are not found by id.** Lookup by id goes through the
  ORM, which hides soft-deleted rows.
- **Registering an email a soft-deleted account holds.** The service check
  passes. The insert then fails on the UNIQUE index, and `register` reports
  `Conflict('Registration failed')` rather than `'Email already exists'`.

## Model

| member | source | states |
|---|---|---|
| UserEntity.NewUser | src/users/users.service.ts:34-54 | the inserted row has the given name, email and hash; plan FREE, subscription TRIAL ending 30 days after `now`; preferences pt-BR, light, America/Sao_Paulo, email notifications only; role MEMBER, unverified, no 2FA, status ACTIVE, not deleted; and it is authenticatable |
| UserEntity.DeletedAtProperty | src/users/entities/user.entity.ts:169-170 | `entity.deleted_at` is `undefined` exactly when the query did not select the column; once selected it is `null` iff the row is live, and otherwise the stored deletion date |
| UserEntity.OmitPasswordHash | src/auth/auth.service.ts:63-67 | the result has no `password_hash` and otherwise the same row and columns |
| ClassValidator.MinLengthExcludesEmpty | src/users/dto/create-user.dto.ts:20-23 | a positive minimum length rules out the empty string and needs at least that many code points |
| ClassValidator.DigitsHaveNoSelectors | src/users/dto/update-profile.dto.ts:123-129 | the length the validators measure equals the plain length on a string of digits |
| CreateUserValidation.AcceptedPayload | src/users/dto/create-user.dto.ts:9-24 | an accepted registration has a name and an email of 1 to 150 measured characters, the email passes the format check, and the password has at least 6 code points |
| CreateUserValidation.ValidName | src/users/dto/create-user.dto.ts:10-13 | a name that passes is non-empty and measures at most 150; every name of 1 to 150 code points passes |
| CreateUserValidation.ValidEmail | src/users/dto/create-user.dto.ts:15-18 | an email that passes satisfies the format check, is non-empty and measures at most 150; every such address of 1 to 150 code points passes |
| CreateUserValidation.ValidPassword | src/users/dto/create-user.dto.ts:20-23 | the password checks accept exactly what `MinLength(6)` alone accepts, and an accepted password has at least 6 code points |
| CreateUserValidation.Accepts | src/users/dto/create-user.dto.ts:9-24 | a payload with name and email of 1 to 150 code points, an address the format check accepts and a password measuring at least 6 passes every decorator |
| UpdateProfileValidation.ParsePlan | src/users/entities/user.entity.ts:12-17 | a string is accepted iff it is the stored value of a plan, and parses to that plan |
| UpdateProfileValidation.ParseSubscriptionStatus | src/users/entities/user.entity.ts:19-24 | the same for the four subscription states |
| UpdateProfileValidation.ParseRole | src/users/entities/user.entity.ts:26-30 | the same for the three roles |
| UpdateProfileValidation.ParseUserStatus | src/users/entities/user.entity.ts:32-36 | accepted iff the string is active, suspended or blocked, and parses to the status with that value |
| UpdateProfileValidation.ParseTheme | src/users/dto/update-profile.dto.ts:89-90 | accepted iff light, dark or auto |
| UpdateProfileValidation.ParsePaymentType | src/users/dto/update-profile.dto.ts:51-52 | accepted iff credit_card, pix or boleto |
| UpdateProfileValidation.EnumValuesParse | src/users/dto/update-profile.dto.ts:145-151 | every enum value parses back from its stored string (a round trip) |
| UpdateProfileValidation.PhoneShapeIsPattern | src/users/dto/update-profile.dto.ts:118-120 | the phone check accepts exactly an optional '+' then one or more digits, whitespace, '-', '(' or ')' |
| UpdateProfileValidation.ValidPhoneFitsColumn | src/users/dto/update-profile.dto.ts:115-121 | an accepted phone has 1 to 20 code points, so it fits `varchar(20)` |
| UpdateProfileValidation.ValidPhone | src/users/dto/update-profile.dto.ts:115-121 | a phone is accepted iff it measures at most 20 and matches the pattern as the pattern means it |
| UpdateProfileValidation.ValidCpfCnpj | src/users/dto/update-profile.dto.ts:123-129 | cpf_cnpj is accepted iff it is exactly 11 or exactly 14 decimal digits, so `@MaxLength(20)` never decides |
| UpdateProfileValidation.ZipCodeIsPattern | src/users/dto/update-profile.dto.ts:42-44 | the CEP check accepts exactly 5 digits, an optional '-', then 3 digits; its length is 8 or 9 |
| UpdateProfileValidation.ValidZipCode | src/users/dto/update-profile.dto.ts:42-44 | a CEP is accepted iff it matches the pattern as the pattern means it; an accepted one has 8 or 9 characters |
| UpdateProfileValidation.Accepts | src/users/dto/update-profile.dto.ts:100-212 | every property is optional, so the empty payload passes whatever the library format checks are |
| UpdateProfileValidation.AcceptedPayload | src/users/dto/update-profile.dto.ts:100-212 | an accepted payload respects the maximum lengths (150/150/100/150/100); its phone has 1 to 20 code points and matches the phone pattern, its cpf_cnpj is 11 or 14 digits, its CEP has 8 or 9 characters and matches the CEP pattern; payment type, theme and status are in their enum sets |
| Completeness.Truthy | src/users/users.service.ts:236-241 | `!!user[field]`: a text column is truthy iff it holds a non-empty string, a document column iff it holds a document, even an empty one |
| Completeness.Filter | src/users/users.service.ts:255-256 | `fields.filter(...)` on the wanted truthiness; its properties are stated by FilterSplits and FilterKeepsOrder |
| Completeness.FilterSplits | src/users/users.service.ts:236-241 | the kept and dropped fields together number as many as the list |
| Completeness.FilterKeepsOrder | src/users/users.service.ts:255-256 | a filter is a subsequence of the list and holds exactly the listed fields of the wanted truthiness |
| Completeness.RoundedPercentage | src/users/users.service.ts:243-247 | the integer formula lies in 0..100, is 100 iff all 11 fields are filled, and is within half a unit of 100k/11 |
| Completeness.RoundedPercentageIsNearest | src/users/users.service.ts:243-247 | every other integer is strictly farther from 100k/11, so no rounding tie arises |
| Completeness.Score | src/users/users.service.ts:222-257 | the report counts 5 required and 6 optional fields |
| Completeness.ScoreProperties | src/users/users.service.ts:222-257 | completed plus missing equals total in each group; the missing lists are exactly the falsy fields, in declaration order; the percentage is in 0..100, is 100 iff nothing is missing, and is the nearest integer to the exact ratio |
| Completeness.NameAndEmailOnly | src/users/users.service.ts:222-257 | name and email alone score 2/5, 0/6 and 18%, with every optional field missing |
| Completeness.NameEmailAndPreferencesOnly | src/users/users.service.ts:222-257 | name, email and a preferences document score 2/5, 1/6 and 27% |
| Completeness.NewAccountScore | src/users/users.service.ts:34-54 | a freshly created account scores 27%, missing phone, cpf_cnpj and profession |
| Users.FindOne | src/users/users.service.ts:81-116 | found iff the key holds a live row; otherwise NotFound; the entity selects every column except password_hash, last_ip, last_device and deleted_at |
| Users.FindByEmail | src/users/users.service.ts:118-120 | found iff a live row holds the email; that stored row, with every column |
| Users.FindByCpfCnpj | src/users/users.service.ts:137-139 | found iff a live row holds the cpf_cnpj; that stored row |
| Users.IsActiveUser | src/users/users.service.ts:174-183 | true iff the key holds an authenticatable row (ACTIVE and not deleted) |
| Users.GetProfileCompleteness | src/users/users.service.ts:222-258 | NotFound exactly when `findOne` fails; otherwise the score of the stored row, whose scored fields are all selected |
| Users.Apply | src/users/users.service.ts:145-148 | a write keeps the key and `created_at` and stamps `updated_at`; an empty write changes nothing else; a write that leaves the constrained columns alone keeps email, cpf_cnpj and column fit |
| Users.ApplyIdempotent | src/users/users.service.ts:196-199 | writing the same fields twice is writing them once |
| Users.ApplySnapshot | src/users/users.service.ts:145-148 | writing back every column as read changes only `updated_at` |
| UserEntity.Varchar | src/users/entities/user.entity.ts:47-51 | a value is stored iff it fits `varchar(n)` or everything past position n is spaces; a fitting value is kept; a stored value is a prefix of the input, at most n long, with only spaces cut |
| UserEntity.VarcharIdempotent | src/users/entities/user.entity.ts:47-51 | storing a stored value again changes nothing; a value over the limit is stored at exactly n characters |
| UserEntity.NullableVarchar | src/users/entities/user.entity.ts:58-65 | NULL is always stored; a non-null value is stored iff its column takes it, staying non-null and fitting, as a prefix of the input with only spaces cut |
| UserEntity.Assign | src/users/entities/user.entity.ts:47-67 | the row is stored iff each of the seven varchar columns takes its value; each such column then holds its assigned value (name and email a prefix of the input with only spaces cut), every other column is kept, the stored row fits every column, and a row that already fits is stored unchanged |
| UserEntity.AssignNewUser | src/users/users.service.ts:34-54 | a new account is stored iff its name and email are; it is stored as the new account built from the stored name and email |
| Users.Save | src/users/entities/user.entity.ts:47-67 | the write succeeds iff every varchar column takes its value and no other row holds the stored email or the stored non-null cpf_cnpj; then exactly the stored row is written and the table constraints still hold; otherwise a query failure, a refused value reported before the email index |
| Users.SaveUnconstrained | src/users/users.service.ts:156-159 | a write that leaves the constrained columns alone is never refused and stores exactly the patched row |
| Users.SaveNewUser | src/users/users.service.ts:34-54 | inserting a new account fails only on a name or email its column refuses, or on a stored email any row, soft-deleted included, already holds; the row written is the new account with name and email as stored |
| Users.HeldEmailFits | src/users/entities/user.entity.ts:50-52 | an email some row holds is stored unchanged by its column |
| Users.RemoveThenRestore | src/users/users.service.ts:152-171 | soft delete leaves the row not live; restore then gives back the authenticatable account unchanged except for `updated_at` |
| Users.RestoreActivates | src/users/users.service.ts:165-168 | restore makes any row authenticatable, whatever its prior status |
| Users.UsersService.constructor | src/users/users.service.ts:14-17 | an empty table that satisfies its constraints |
| Users.UsersService.GenerateId | src/users/entities/user.entity.ts:40-41 | a key no row has; the table is unchanged |
| Users.UsersService.Store | src/users/users.service.ts:56 | the table becomes what `Save` gives, or stays unchanged with its error |
| Users.UsersService.Create | src/users/users.service.ts:19-57 | Conflict('Email already exists') iff a live row holds the email, with the table unchanged; otherwise success iff the columns take name and email and no row at all holds the stored email, and an email any row holds always fails; a success returns `NewUser` under a fresh key with the password's hash and the name and email as sent, and inserts it with name and email as stored |
| Users.UsersService.Update | src/users/users.service.ts:122-150 | NotFound for a key without a live row; Conflict when a truthy, changed email or cpf_cnpj is held by another live row, with the table unchanged; otherwise the merged row is written through the database's checks and reloaded |
| Users.UsersService.Remove | src/users/users.service.ts:152-160 | succeeds iff the row is live; it then sets `deleted_at` and `updated_at` to now and status BLOCKED, and changes nothing else |
| Users.UsersService.Restore | src/users/users.service.ts:163-171 | succeeds iff the key has a row, deleted or not; it then clears `deleted_at`, sets ACTIVE, stamps `updated_at`, and `isActiveUser` holds; the result is always `findOne` on the new table, so the entity leaves out password_hash, last_ip, last_device and deleted_at |
| Users.UsersService.UpdateProfile | src/users/users.service.ts:186-202 | an empty id fails before any lookup; NotFound for a key without a live row; otherwise the merged row is written with no uniqueness pre-check and reloaded |
| Users.UsersService.UpdateSubscription | src/users/users.service.ts:205-219 | NotFound for a key without a live row; otherwise sets the plan, and the trial end only when one is given; stamps `updated_at`; the subscription status is unchanged; the result is `findOne` on the new table, with its projection |
| Jwt.Sign | src/auth/auth.service.ts:26-27 | the token carries the payload, lives `expiresIn` seconds, and its `iat` is the signing second |
| Jwt.TokenLifetime | src/auth/strategies/jwt.strategy.ts:27 | a token is honoured for at least `expiresIn - 1` seconds and refused after `expiresIn` seconds |
| Jwt.ValidateAsWritten | src/auth/strategies/jwt.strategy.ts:32-42 | NotFound for a subject without a live row, and Unauthorized for every other subject |
| Jwt.ValidateAsWrittenRejectsNewAccount | src/auth/strategies/jwt.strategy.ts:37 | a just-created, authenticatable account is still refused |
| Jwt.Validate | src/auth/strategies/jwt.strategy.ts:32-42 | accepts iff the subject is an authenticatable row, returning the record `findOne` found; NotFound for a subject without a live row; otherwise Unauthorized |
| Jwt.ValidateAgreesWithIsActiveUser | src/auth/strategies/jwt.strategy.ts:34-39 | the strategy accepts exactly the subjects `isActiveUser` accepts |
| Jwt.Expired | src/auth/strategies/jwt.strategy.ts:27 | with `ignoreExpiration: false`, a token is refused from the millisecond its `exp` second begins |
| Jwt.AuthenticateAsWritten | src/auth/strategies/jwt.strategy.ts:27-42 | as written, no request passes: Unauthorized for an expired token or a live subject, NotFound otherwise |
| Jwt.Authenticate | src/auth/strategies/jwt.strategy.ts:27-42 | corrected strategy (see Findings): a request passes iff its token has not expired and its subject is active; the result is the subject's row |
| Jwt.RemovedAccountTokenRefused | src/auth/strategies/jwt.strategy.ts:37-39 | after `remove`, any token for that account is refused |
| Jwt.FreshTokenAccepted | src/auth/strategies/jwt.strategy.ts:32-42 | corrected strategy (see Findings): a token just signed for an authenticatable account is accepted; the strategy as written refuses it |
| Auth.Login | src/auth/auth.service.ts:38-68 | every failure is the one `Invalid credentials` error; success iff a live, ACTIVE account holds the email and the password matches; the result is that row without `password_hash` and a token for `{ sub: id, email }` |
| Auth.ValidateUser | src/auth/auth.service.ts:70-80 | returns the account without its hash iff a live row holds the email and the password matches; status is not checked |
| Auth.ValidateUserIgnoresStatus | src/auth/auth.service.ts:43-49 | a suspended or blocked account with the right password passes `validateUser` but fails `login` |
| Auth.LoginWithRegisteredPassword | src/auth/auth.service.ts:51-61 | with a sound hash, an account `create` inserted logs in with its password |
| Auth.RegistrationFailure | src/auth/auth.service.ts:30-35 | a Conflict passes through unchanged; any other failure becomes Conflict('Registration failed') |
| Auth.Register | src/auth/auth.service.ts:21-36 | every failure is a Conflict and leaves the table unchanged; success iff no live row holds the email, the columns take name and email, and no row holds the stored email; the new account as sent, the row as stored, and a token for `{ sub: id, email }` |
| Auth.RegisterThenLogin | src/auth/auth.service.ts:21-68 | after a successful registration, login with the same credentials succeeds iff the email fits its column as sent, and then reaches the stored row with the same claims |

## Left out

- bcrypt: hashing and comparison are the functions of a `Crypto.Hasher`. The
  model keeps only the property that a password matches its own hash
  (`Crypto.Sound`). The random salt is not modelled, so `hash` is a function.
- JWT: signing and signature checking are not modelled, and neither is the
  `'default-secret'` fallback (src/auth/strategies/jwt.strategy.ts:28). A token
  is its claims.
- The token's lifetime: `expiresIn` is a parameter. The module that configures
  it, src/auth/auth.module.ts, is not part of this model.
- Reading the token from the `access_token` cookie
  (src/auth/strategies/jwt.strategy.ts:21-26) is not modelled.
- Failures of signing and of the database connection are not modelled.
- Users.UsersService.Create: the trial end is `now` plus 30 × 86 400 000 ms.
  The source adds 30 calendar days in local time, which differs by an hour
  across a daylight-saving change.
- TypeORM and PostgreSQL: SQL, the raw query and the async plumbing are
  modelled by the map and `Save`. `Save` reports the email index before the
  cpf_cnpj index; which one PostgreSQL reports first when both clash is not
  modelled. The `inet` type of `last_ip` is not checked.
- Users.FindOne: `id` and `tenant_id` are `uuid` columns. A key that is not a
  uuid makes PostgreSQL raise an invalid-input error, which the service
  surfaces as a query failure. The model answers NotFound instead, and `Save`
  accepts any string as `tenant_id`. This holds for every lookup or write by
  id: `FindOne`, `IsActiveUser`, `GetProfileCompleteness`, `Update`,
  `Remove`, `Restore`, `UpdateProfile` and `UpdateSubscription`.
- Users.Patch: the body of `updateProfile` is untyped
  (src/users/users.controller.ts:57). A property that is not a column makes
  TypeORM's `update` throw an entity-property-not-found error. A `Patch`
  holds only columns, so `UpdateProfile` and `Update` never report that
  error.
- The uuid generator: it is modelled by a counter whose keys are longer than
  every stored key. A key is never reused.
- `findAll` (src/users/users.service.ts:59-79) is not modelled. It reads the
  table and has no logic beyond its projection.
- Users.Apply: a patch cannot write `id`, `created_at` or `updated_at`. The
  service always overrides `updated_at` itself. Writing `id` or `created_at`
  through the untyped bodies is not modelled.
- Users.Apply: a property of the wrong type in an untyped body is not modelled.
  The same goes for a `null` written to a NOT NULL column.
- The controllers (src/users/users.controller.ts, src/auth/auth.controller.ts)
  are not modelled: routes, guards, cookies and the 7-day cookie lifetime. The
  serializer that drops `password_hash` from their responses is also left out,
  so `register` returns the saved row as the service does.
- src/main.ts and src/users/dto/update-user.dto.ts are not modelled.
- `IsEmail`, `IsUUID(4)` and `IsDateString` are library checks, passed in as
  functions (`EmailCheck`, `FormatChecks`).
- `IsString`, `IsBoolean` and `IsObject` are type checks; the model's types
  play their part.
- `default_tax_rate` is a JavaScript number; a `real` stands in for it, and
  floating point is not modelled.
- Concurrency: each operation is atomic. The race between an `update`
  pre-check and its write is not modelled. The database's UNIQUE indexes keep
  the table consistent either way, which `Save` shows.

## Findings

| source | as written | input that shows it | evidently intended | confidence | as-written member | corrected member |
|---|---|---|---|---|---|---|
| src/auth/strategies/jwt.strategy.ts:37 | `validate` tests `user.deleted_at !== null` on the entity `findOne` returns. `findOne` does not select `deleted_at` (src/users/users.service.ts:84-108), so the property is `undefined` and the strict test is always true. | The account `create` has just inserted, with its own fresh token's claims `{ sub: id, email }`: `validate` answers Unauthorized. | Refuse only an account whose `deleted_at` holds a date. Since `findOne` already hides soft-deleted rows, that means accepting exactly the active accounts. | not executed; medium, because it rests on TypeORM leaving an unselected column `undefined` on the entity | Jwt.ValidateAsWritten, Jwt.ValidateAsWrittenRejectsNewAccount, Jwt.AuthenticateAsWritten | Jwt.Validate, Jwt.ValidateAgreesWithIsActiveUser, Jwt.Authenticate, Jwt.FreshTokenAccepted |
