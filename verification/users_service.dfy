/** The user service: lookups through the ORM (which hides soft-deleted rows),
    writes checked by the database's constraints, and the operations that
    create, change, soft-delete and restore accounts. */
module Users {
  import opened Common
  import opened UserEntity
  import opened CreateUserValidation
  import opened Crypto
  import opened Completeness

  // Lookups.

  /** The columns `findOne` selects. */
  const FindOneSelect: set<string> := {
    "id", "tenant_id", "name", "email", "phone", "cpf_cnpj", "profession",
    "company_name", "profile_picture_url", "subscription_plan", "subscription_status",
    "trial_end_date", "billing_address", "payment_method", "preferences",
    "system_preferences", "role", "is_verified", "two_factor_enabled", "status",
    "created_at", "updated_at", "last_login"
  }

  /** `findOne(id)`: the live row with that key, projected on `FindOneSelect`. */
  function FindOne(rows: Rows, id: Id): (r: Result<Loaded>)
    ensures r.Ok? <==> id in rows && Live(rows[id])
    ensures r.Err? ==> r.error == NotFound
    ensures r.Ok? ==> r.value.row == rows[id]
    ensures r.Ok? ==> r.value.selected == AllColumns - {"password_hash", "last_ip", "last_device", "deleted_at"}
  {
    if id in rows && Live(rows[id]) then Ok(Loaded(rows[id], FindOneSelect)) else Err(NotFound)
  }

  /** Some live row holds this email. */
  predicate LiveEmail(rows: Rows, email: string) {
    exists k :: k in rows && Live(rows[k]) && rows[k].email == email
  }

  /** `findByEmail(email)`: the live row holding this email, every column loaded. */
  function FindByEmail(rows: Rows, email: string): (r: Option<Loaded>)
    requires TableConstraints(rows)
    ensures r.Some? <==> LiveEmail(rows, email)
    ensures r.Some? ==> r.value.row.id in rows && rows[r.value.row.id] == r.value.row
    ensures r.Some? ==> r.value.row.email == email && Live(r.value.row) && r.value.selected == AllColumns
  {
    if LiveEmail(rows, email) then
      var k :| k in rows && Live(rows[k]) && rows[k].email == email;
      Some(Loaded(rows[k], AllColumns))
    else None
  }

  /** Some live row holds this cpf_cnpj. */
  predicate LiveCpfCnpj(rows: Rows, cpfCnpj: string) {
    exists k :: k in rows && Live(rows[k]) && rows[k].cpfCnpj == Some(cpfCnpj)
  }

  /** `findOne({ where: { cpf_cnpj } })`: the live row holding this document number. */
  function FindByCpfCnpj(rows: Rows, cpfCnpj: string): (r: Option<User>)
    requires TableConstraints(rows)
    ensures r.Some? <==> LiveCpfCnpj(rows, cpfCnpj)
    ensures r.Some? ==> r.value.id in rows && rows[r.value.id] == r.value
    ensures r.Some? ==> r.value.cpfCnpj == Some(cpfCnpj) && Live(r.value)
  {
    if LiveCpfCnpj(rows, cpfCnpj) then
      var k :| k in rows && Live(rows[k]) && rows[k].cpfCnpj == Some(cpfCnpj);
      Some(rows[k])
    else None
  }

  /** `isActiveUser(id)`: a row with that key, ACTIVE and not soft-deleted. */
  function IsActiveUser(rows: Rows, id: Id): (b: bool)
    ensures b <==> id in rows && Authenticatable(rows[id])
    ensures b ==> FindOne(rows, id).Ok?
  {
    id in rows && rows[id].status == UserStatus.Active && rows[id].deletedAt.None?
  }

  /** `getProfileCompleteness(id)`: the score of the row `findOne` loads. */
  function GetProfileCompleteness(rows: Rows, id: Id): (r: Result<Report>)
    ensures r.Err? <==> FindOne(rows, id).Err?
    ensures r.Err? ==> r.error == NotFound
    ensures r.Ok? ==> r.value == Score(rows[id])
    ensures r.Ok? ==> forall f: ProfileField :: f.Key() in FindOne(rows, id).value.selected
  {
    match FindOne(rows, id)
    case Err(e) => Err(e)
    case Ok(user) => Ok(Score(user.row))
  }

  // Writes.

  /** The properties of an UPDATE's SET list: `None` leaves a column alone (an
      absent or `undefined` property), `Some(v)` writes `v`; on a nullable
      column `v` is itself an `Option`, `None` being SQL NULL. The key and the
      two timestamp columns are not part of a patch. */
  datatype Patch = Patch(
    tenantId: Option<Option<string>>,
    name: Option<string>,
    email: Option<string>,
    passwordHash: Option<string>,
    phone: Option<Option<string>>,
    cpfCnpj: Option<Option<string>>,
    profession: Option<Option<string>>,
    companyName: Option<Option<string>>,
    profilePictureUrl: Option<Option<string>>,
    subscriptionPlan: Option<SubscriptionPlan>,
    subscriptionStatus: Option<SubscriptionStatus>,
    trialEndDate: Option<Option<Time>>,
    billingAddress: Option<Option<BillingAddressDoc>>,
    paymentMethod: Option<Option<PaymentMethodDoc>>,
    preferences: Option<Option<PreferencesDoc>>,
    systemPreferences: Option<Option<SystemPreferencesDoc>>,
    role: Option<UserRole>,
    isVerified: Option<bool>,
    twoFactorEnabled: Option<bool>,
    lastIp: Option<Option<string>>,
    lastDevice: Option<Option<string>>,
    status: Option<UserStatus>,
    deletedAt: Option<Option<Time>>,
    lastLogin: Option<Option<Time>>)

  const EmptyPatch: Patch := Patch(
    None, None, None, None, None, None, None, None, None, None, None, None,
    None, None, None, None, None, None, None, None, None, None, None, None)

  /** What `remove` writes. */
  function SoftDeletePatch(now: Time): Patch {
    EmptyPatch.(deletedAt := Some(Some(now)), status := Some(UserStatus.Blocked))
  }

  /** What the raw query of `restore` writes (besides `updated_at`). */
  const RestorePatch: Patch := EmptyPatch.(deletedAt := Some(None), status := Some(UserStatus.Active))

  /** What `updateSubscription` writes: an `undefined` trial end is skipped. */
  function SubscriptionPatch(plan: SubscriptionPlan, trialEnd: Option<Time>): Patch {
    EmptyPatch.(subscriptionPlan := Some(plan),
                trialEndDate := if trialEnd.Some? then Some(trialEnd) else None)
  }

  /** The patch that writes every column back with the value it already has. */
  function Snapshot(u: User): Patch {
    Patch(Some(u.tenantId), Some(u.name), Some(u.email), Some(u.passwordHash),
          Some(u.phone), Some(u.cpfCnpj), Some(u.profession), Some(u.companyName),
          Some(u.profilePictureUrl), Some(u.subscriptionPlan), Some(u.subscriptionStatus),
          Some(u.trialEndDate), Some(u.billingAddress), Some(u.paymentMethod),
          Some(u.preferences), Some(u.systemPreferences), Some(u.role), Some(u.isVerified),
          Some(u.twoFactorEnabled), Some(u.lastIp), Some(u.lastDevice), Some(u.status),
          Some(u.deletedAt), Some(u.lastLogin))
  }

  /** The patch touches none of the columns a constraint is declared on. */
  predicate Unconstrained(p: Patch) {
    && p.name.None? && p.email.None? && p.phone.None? && p.cpfCnpj.None?
    && p.profession.None? && p.companyName.None? && p.lastDevice.None?
  }

  function Override<T>(o: Option<T>, current: T): T {
    if o.Some? then o.value else current
  }

  /** The row after `repository.update(id, patch)`: the written columns
      replaced and `updated_at` stamped (an UpdateDateColumn). */
  function Apply(u: User, p: Patch, now: Time): (r: User)
    ensures r.id == u.id && r.createdAt == u.createdAt && r.updatedAt == now
    ensures p == EmptyPatch ==> r == u.(updatedAt := now)
    ensures Unconstrained(p) ==> r.email == u.email && r.cpfCnpj == u.cpfCnpj && (FitsColumns(u) ==> FitsColumns(r))
  {
    u.(tenantId := Override(p.tenantId, u.tenantId),
       name := Override(p.name, u.name),
       email := Override(p.email, u.email),
       passwordHash := Override(p.passwordHash, u.passwordHash),
       phone := Override(p.phone, u.phone),
       cpfCnpj := Override(p.cpfCnpj, u.cpfCnpj),
       profession := Override(p.profession, u.profession),
       companyName := Override(p.companyName, u.companyName),
       profilePictureUrl := Override(p.profilePictureUrl, u.profilePictureUrl),
       subscriptionPlan := Override(p.subscriptionPlan, u.subscriptionPlan),
       subscriptionStatus := Override(p.subscriptionStatus, u.subscriptionStatus),
       trialEndDate := Override(p.trialEndDate, u.trialEndDate),
       billingAddress := Override(p.billingAddress, u.billingAddress),
       paymentMethod := Override(p.paymentMethod, u.paymentMethod),
       preferences := Override(p.preferences, u.preferences),
       systemPreferences := Override(p.systemPreferences, u.systemPreferences),
       role := Override(p.role, u.role),
       isVerified := Override(p.isVerified, u.isVerified),
       twoFactorEnabled := Override(p.twoFactorEnabled, u.twoFactorEnabled),
       lastIp := Override(p.lastIp, u.lastIp),
       lastDevice := Override(p.lastDevice, u.lastDevice),
       status := Override(p.status, u.status),
       deletedAt := Override(p.deletedAt, u.deletedAt),
       lastLogin := Override(p.lastLogin, u.lastLogin),
       updatedAt := now)
  }

  /** Writing the same patch twice is writing it once, at the later time. */
  lemma ApplyIdempotent(u: User, p: Patch, t1: Time, t2: Time)
    ensures Apply(Apply(u, p, t1), p, t2) == Apply(u, p, t2)
  {
  }

  /** Writing back every column as read changes nothing but `updated_at`. */
  lemma ApplySnapshot(u: User, now: Time)
    ensures Apply(u, Snapshot(u), now) == u.(updatedAt := now)
  {
  }

  /** Another row already holds the email of `u`. */
  predicate EmailClash(rows: Rows, u: User) {
    exists k :: k in rows && k != u.id && rows[k].email == u.email
  }

  /** Another row already holds the (non-null) cpf_cnpj of `u`. */
  predicate CpfCnpjClash(rows: Rows, u: User) {
    u.cpfCnpj.Some? && exists k :: k in rows && k != u.id && rows[k].cpfCnpj == u.cpfCnpj
  }

  /** The database storing row `u` under its key, inserted or overwritten.
      Each varchar column is assigned as PostgreSQL assigns it; a value too
      long for its column and a duplicate in a UNIQUE index make it refuse
      the write, the index on email reported before the one on cpf_cnpj. */
  function Save(rows: Rows, u: User): (r: Result<Rows>)
    ensures r.Ok? <==> Assign(u).Some? && !EmailClash(rows, Assign(u).value) && !CpfCnpjClash(rows, Assign(u).value)
    ensures r.Ok? ==> r.value == rows[u.id := Assign(u).value]
    ensures r.Err? ==> r.error.QueryFailed?
    ensures Assign(u).None? ==> r == Err(QueryFailed(ValueTooLong))
    ensures Assign(u).Some? && EmailClash(rows, Assign(u).value) ==> r == Err(QueryFailed(UniqueViolation("email")))
    ensures r.Ok? && TableConstraints(rows) ==> TableConstraints(r.value)
  {
    match Assign(u)
    case None => Err(QueryFailed(ValueTooLong))
    case Some(stored) =>
      if EmailClash(rows, stored) then Err(QueryFailed(UniqueViolation("email")))
      else if CpfCnpjClash(rows, stored) then Err(QueryFailed(UniqueViolation("cpf_cnpj")))
      else Ok(rows[u.id := stored])
  }

  /** A write that leaves the constrained columns of a stored row alone is
      never refused. */
  lemma SaveUnconstrained(rows: Rows, id: Id, p: Patch, now: Time)
    requires TableConstraints(rows) && id in rows && Unconstrained(p)
    ensures Save(rows, Apply(rows[id], p, now)) == Ok(rows[id := Apply(rows[id], p, now)])
  {
  }

  /** Inserting a new account under a fresh key fails only on a name or an
      email its column refuses, or on an email some row, live or soft-deleted,
      already holds once stored; the row stored is the new account with its
      name and email as their columns hold them. */
  lemma SaveNewUser(rows: Rows, u: User)
    requires TableConstraints(rows) && u.id !in rows
    requires u == NewUser(u.id, u.name, u.email, u.passwordHash, u.createdAt)
    ensures Save(rows, u).Ok? <==>
      Varchar(u.name, 150).Some? && Varchar(u.email, 150).Some? && !EmailInUse(rows, Varchar(u.email, 150).value)
    ensures Save(rows, u).Ok? ==>
      Save(rows, u).value == rows[u.id := NewUser(u.id, Varchar(u.name, 150).value, Varchar(u.email, 150).value,
                                                  u.passwordHash, u.createdAt)]
  {
    AssignNewUser(u.id, u.name, u.email, u.passwordHash, u.createdAt);
    if Assign(u).Some? {
      var stored := Assign(u).value;
      assert EmailClash(rows, stored) <==> EmailInUse(rows, stored.email);
    }
  }

  /** An email some row already holds fits its column as it is. */
  lemma HeldEmailFits(rows: Rows, email: string)
    requires TableConstraints(rows) && EmailInUse(rows, email)
    ensures Varchar(email, 150) == Some(email)
  {
    var k :| k in rows && rows[k].email == email;
    assert FitsColumns(rows[k]);
  }

  /** What `remove` writes into a row. */
  lemma SoftDeleteWrites(u: User, now: Time)
    ensures Apply(u, SoftDeletePatch(now), now) == u.(deletedAt := Some(now), status := UserStatus.Blocked, updatedAt := now)
  {
  }

  /** What `restore` writes into a row. */
  lemma RestoreWrites(u: User, now: Time)
    ensures Apply(u, RestorePatch, now) == u.(deletedAt := None, status := UserStatus.Active, updatedAt := now)
  {
  }

  /** What `updateSubscription` writes into a row. */
  lemma SubscriptionWrites(u: User, plan: SubscriptionPlan, trialEnd: Option<Time>, now: Time)
    ensures Apply(u, SubscriptionPatch(plan, trialEnd), now)
         == u.(subscriptionPlan := plan,
               trialEndDate := if trialEnd.Some? then trialEnd else u.trialEndDate,
               updatedAt := now)
  {
  }

  /** The outcome of writing `u` and then reloading it with `findOne`: a
      refused write leaves the rows alone and reports the database's error. */
  predicate WriteThenReload(before: Rows, after: Rows, u: User, r: Result<Loaded>) {
    match Save(before, u)
    case Err(e) => after == before && r == Err(e)
    case Ok(next) => after == next && r == FindOne(next, u.id)
  }

  /** `update`'s pre-check: the patch gives a truthy email that differs from the
      current one and that another live account already holds. */
  predicate EmailTakenByOther(rows: Rows, id: Id, p: Patch)
    requires id in rows
  {
    && p.email.Some? && p.email.value != "" && p.email.value != rows[id].email
    && exists k :: k in rows && k != id && Live(rows[k]) && rows[k].email == p.email.value
  }

  /** The same pre-check for cpf_cnpj. */
  predicate CpfCnpjTakenByOther(rows: Rows, id: Id, p: Patch)
    requires id in rows
  {
    && p.cpfCnpj.Some? && p.cpfCnpj.value.Some? && p.cpfCnpj.value.value != ""
    && p.cpfCnpj.value != rows[id].cpfCnpj
    && exists k :: k in rows && k != id && Live(rows[k]) && rows[k].cpfCnpj == p.cpfCnpj.value
  }

  /** Removing an authenticatable account and restoring it gives the account
      back as it was, except for `updated_at`. */
  lemma RemoveThenRestore(u: User, removedAt: Time, restoredAt: Time)
    requires Authenticatable(u)
    ensures !Live(Apply(u, SoftDeletePatch(removedAt), removedAt))
    ensures Apply(Apply(u, SoftDeletePatch(removedAt), removedAt), RestorePatch, restoredAt) == u.(updatedAt := restoredAt)
  {
  }

  /** `restore` activates an account whatever its state: soft-deleted,
      suspended or blocked. */
  lemma RestoreActivates(u: User, now: Time)
    ensures Authenticatable(Apply(u, RestorePatch, now))
    ensures Apply(u, RestorePatch, now).email == u.email
  {
  }

  /** The account store: the `users` table and the counter that stands in for
      the database's uuid generator. */
  class UsersService {
    var rows: Rows
    var serial: nat

    /** The table keeps its constraints and every key is at most `serial` long,
        so a key of length `serial + 1` is fresh. */
    ghost predicate Valid()
      reads this
    {
      TableConstraints(rows) && forall k :: k in rows ==> |k| <= serial
    }

    constructor()
      ensures Valid() && rows == map[]
    {
      rows := map[];
      serial := 0;
    }

    /** A key no row has. */
    method GenerateId() returns (id: Id)
      requires Valid()
      modifies this
      ensures Valid() && rows == old(rows)
      ensures id !in rows && |id| == serial
    {
      serial := serial + 1;
      id := seq(serial, _ => 'u');
    }

    /** Stores `u`, which must already hold its key. */
    method Store(u: User) returns (r: Result<()>)
      requires Valid() && (u.id in rows || |u.id| <= serial)
      modifies this
      ensures Valid() && serial == old(serial)
      ensures Save(old(rows), u).Ok? ==> r.Ok? && rows == Save(old(rows), u).value
      ensures Save(old(rows), u).Err? ==> r == Err(Save(old(rows), u).error) && rows == old(rows)
    {
      var saved := Save(rows, u);
      match saved
      case Err(e) =>
        r := Err(e);
      case Ok(next) =>
        rows := next;
        r := Ok(());
    }

    /** `create(dto)`: refuses an email a live account holds, then inserts a
        row with a fresh key, the password's hash and the trial defaults. */
    method Create(dto: CreateUserDto, hasher: Hasher, now: Time) returns (r: Result<User>)
      requires Valid()
      modifies this
      ensures Valid()
      ensures r.Err? ==> rows == old(rows)
      ensures LiveEmail(old(rows), dto.email) ==> r == Err(Conflict("Email already exists"))
      ensures !LiveEmail(old(rows), dto.email) ==>
        (r.Ok? <==> Varchar(dto.name, 150).Some? && Varchar(dto.email, 150).Some?
                    && !EmailInUse(old(rows), Varchar(dto.email, 150).value))
      ensures !LiveEmail(old(rows), dto.email) && r.Err? ==> r.error.QueryFailed?
      ensures EmailInUse(old(rows), dto.email) ==> r.Err?
      ensures r.Ok? ==> r.value == NewUser(r.value.id, dto.name, dto.email, hasher.hash(dto.password), now)
      ensures r.Ok? ==> r.value.id !in old(rows) && rows == old(rows)[r.value.id :=
        NewUser(r.value.id, Varchar(dto.name, 150).value, Varchar(dto.email, 150).value, hasher.hash(dto.password), now)]
    {
      var existing := FindByEmail(rows, dto.email);
      if existing.Some? {
        return Err(Conflict("Email already exists"));
      }
      var id := GenerateId();
      var user := NewUser(id, dto.name, dto.email, hasher.hash(dto.password), now);
      SaveNewUser(rows, user);
      if EmailInUse(rows, dto.email) {
        HeldEmailFits(rows, dto.email);
      }
      var stored := Store(user);
      if stored.Err? {
        return Err(stored.error);
      }
      r := Ok(user);
    }

    /** `update(id, patch)`: `findOne`, the two uniqueness pre-checks, the
        write, and `findOne` again. */
    method Update(id: Id, patch: Patch, now: Time) returns (r: Result<Loaded>)
      requires Valid()
      modifies this
      ensures Valid()
      ensures FindOne(old(rows), id).Err? ==> r == Err(NotFound) && rows == old(rows)
      ensures FindOne(old(rows), id).Ok? && EmailTakenByOther(old(rows), id, patch) ==>
        r == Err(Conflict("Email already exists")) && rows == old(rows)
      ensures (FindOne(old(rows), id).Ok? && !EmailTakenByOther(old(rows), id, patch)
               && CpfCnpjTakenByOther(old(rows), id, patch)) ==>
        r == Err(Conflict("CPF/CNPJ already exists")) && rows == old(rows)
      ensures (FindOne(old(rows), id).Ok? && !EmailTakenByOther(old(rows), id, patch)
               && !CpfCnpjTakenByOther(old(rows), id, patch)) ==>
        WriteThenReload(old(rows), rows, Apply(old(rows)[id], patch, now), r)
    {
      var found := FindOne(rows, id);
      if found.Err? {
        return Err(NotFound);
      }
      var user := found.value.row;
      if patch.email.Some? && patch.email.value != "" && patch.email.value != user.email {
        var existing := FindByEmail(rows, patch.email.value);
        if existing.Some? && existing.value.row.id != id {
          return Err(Conflict("Email already exists"));
        }
      }
      if patch.cpfCnpj.Some? && patch.cpfCnpj.value.Some? && patch.cpfCnpj.value.value != ""
        && patch.cpfCnpj.value != user.cpfCnpj
      {
        var existing := FindByCpfCnpj(rows, patch.cpfCnpj.value.value);
        if existing.Some? && existing.value.id != id {
          return Err(Conflict("CPF/CNPJ already exists"));
        }
      }
      var stored := Store(Apply(user, patch, now));
      if stored.Err? {
        return Err(stored.error);
      }
      r := FindOne(rows, id);
    }

    /** `remove(id)`: soft delete of a live row. */
    method Remove(id: Id, now: Time) returns (r: Result<()>)
      requires Valid()
      modifies this
      ensures Valid()
      ensures r.Ok? <==> FindOne(old(rows), id).Ok?
      ensures r.Err? ==> r.error == NotFound && rows == old(rows)
      ensures r.Ok? ==> rows == old(rows)[id := old(rows)[id].(deletedAt := Some(now), status := UserStatus.Blocked, updatedAt := now)]
    {
      var found := FindOne(rows, id);
      if found.Err? {
        return Err(NotFound);
      }
      SaveUnconstrained(rows, id, SoftDeletePatch(now), now);
      SoftDeleteWrites(rows[id], now);
      var stored := Store(Apply(rows[id], SoftDeletePatch(now), now));
      r := Ok(());
    }

    /** `restore(id)`: the raw UPDATE, which sees soft-deleted rows too and
        does not look at the prior state, then `findOne`. */
    method Restore(id: Id, now: Time) returns (r: Result<Loaded>)
      requires Valid()
      modifies this
      ensures Valid()
      ensures r.Ok? <==> id in old(rows)
      ensures r.Err? ==> r.error == NotFound && rows == old(rows)
      ensures r.Ok? ==> rows == old(rows)[id := old(rows)[id].(deletedAt := None, status := UserStatus.Active, updatedAt := now)]
      ensures r.Ok? ==> IsActiveUser(rows, id) && r.value.row == rows[id]
      ensures r == FindOne(rows, id)
    {
      if id in rows {
        var written := Apply(rows[id], RestorePatch, now);
        SaveUnconstrained(rows, id, RestorePatch, now);
        RestoreWrites(rows[id], now);
        var stored := Store(written);
        assert rows[id] == written && Authenticatable(written);
      }
      r := FindOne(rows, id);
    }

    /** `updateProfile(id, patch)`: an empty id is refused before any lookup;
        no uniqueness pre-check, so only the database stops a duplicate. */
    method UpdateProfile(id: Id, patch: Patch, now: Time) returns (r: Result<Loaded>)
      requires Valid()
      modifies this
      ensures Valid()
      ensures id == "" ==> r == Err(IdRequired) && rows == old(rows)
      ensures id != "" && FindOne(old(rows), id).Err? ==> r == Err(NotFound) && rows == old(rows)
      ensures id != "" && FindOne(old(rows), id).Ok? ==>
        WriteThenReload(old(rows), rows, Apply(old(rows)[id], patch, now), r)
    {
      if id == "" {
        return Err(IdRequired);
      }
      var found := FindOne(rows, id);
      if found.Err? {
        return Err(NotFound);
      }
      var stored := Store(Apply(found.value.row, patch, now));
      if stored.Err? {
        return Err(stored.error);
      }
      r := FindOne(rows, id);
    }

    /** `updateSubscription(id, plan, trialEnd)`: sets the plan, and the trial
        end when one is given; the subscription status is left as it was. */
    method UpdateSubscription(id: Id, plan: SubscriptionPlan, trialEnd: Option<Time>, now: Time)
      returns (r: Result<Loaded>)
      requires Valid()
      modifies this
      ensures Valid()
      ensures r.Ok? <==> FindOne(old(rows), id).Ok?
      ensures r.Err? ==> r.error == NotFound && rows == old(rows)
      ensures r.Ok? ==> rows == old(rows)[id := old(rows)[id].(
        subscriptionPlan := plan,
        trialEndDate := if trialEnd.Some? then trialEnd else old(rows)[id].trialEndDate,
        updatedAt := now)]
      ensures r.Ok? ==> r.value.row == rows[id] && rows[id].subscriptionStatus == old(rows)[id].subscriptionStatus
      ensures r.Ok? ==> r == FindOne(rows, id)
    {
      var found := FindOne(rows, id);
      if found.Err? {
        return Err(NotFound);
      }
      var written := Apply(rows[id], SubscriptionPatch(plan, trialEnd), now);
      SaveUnconstrained(rows, id, SubscriptionPatch(plan, trialEnd), now);
      SubscriptionWrites(rows[id], plan, trialEnd, now);
      var stored := Store(written);
      assert rows[id] == written && Live(written);
      r := FindOne(rows, id);
    }
  }
}
