/** The `users` table: its enums, the JSON documents it stores, one row, the
    column defaults of a new row and the constraints the database enforces. */
module UserEntity {
  import opened Common

  /** A primary key (a uuid in the database; opaque here). */
  type Id = string

  datatype SubscriptionPlan = Free | Basic | Pro | Enterprise
  {
    /** The string stored in the enum column. */
    function Value(): string {
      match this
      case Free => "free"
      case Basic => "basic"
      case Pro => "pro"
      case Enterprise => "enterprise"
    }
  }

  datatype SubscriptionStatus = Active | Trial | Canceled | Suspended
  {
    function Value(): string {
      match this
      case Active => "active"
      case Trial => "trial"
      case Canceled => "canceled"
      case Suspended => "suspended"
    }
  }

  datatype UserRole = Owner | Admin | Member
  {
    function Value(): string {
      match this
      case Owner => "owner"
      case Admin => "admin"
      case Member => "member"
    }
  }

  datatype UserStatus = Active | Suspended | Blocked
  {
    function Value(): string {
      match this
      case Active => "active"
      case Suspended => "suspended"
      case Blocked => "blocked"
    }
  }

  datatype Theme = Light | Dark | Auto
  {
    function Value(): string {
      match this
      case Light => "light"
      case Dark => "dark"
      case Auto => "auto"
    }
  }

  datatype PaymentType = CreditCard | Pix | Boleto
  {
    function Value(): string {
      match this
      case CreditCard => "credit_card"
      case Pix => "pix"
      case Boleto => "boleto"
    }
  }

  // The jsonb documents of a row.

  datatype BillingAddressDoc = BillingAddressDoc(
    street: string, number: string, complement: Option<string>, neighborhood: string,
    city: string, state: string, zipCode: string, country: string)

  datatype PaymentMethodDoc = PaymentMethodDoc(
    kind: PaymentType, cardLastFour: Option<string>, cardBrand: Option<string>,
    pixKey: Option<string>, bankAccount: Option<string>)

  datatype Notifications = Notifications(email: bool, sms: bool, whatsapp: bool, marketing: bool)

  datatype PreferencesDoc = PreferencesDoc(
    language: string, theme: Theme, timezone: string, notifications: Notifications)

  datatype ContractSettings = ContractSettings(
    autoGenerate: bool, defaultTemplate: string, signatureRequired: bool)

  /** `default_tax_rate` is a JavaScript number; a rational stands in for it. */
  datatype FiscalSettings = FiscalSettings(
    autoCalculateTax: bool, defaultTaxRate: real, invoiceNumbering: string)

  datatype Integrations = Integrations(
    accountingSoftware: Option<string>, crmSystem: Option<string>, emailProvider: Option<string>)

  datatype SystemPreferencesDoc = SystemPreferencesDoc(
    contracts: ContractSettings, fiscal: FiscalSettings, integrations: Integrations)

  /** One row of the `users` table. */
  datatype User = User(
    id: Id,
    tenantId: Option<string>,
    name: string,
    email: string,
    passwordHash: string,
    phone: Option<string>,
    cpfCnpj: Option<string>,
    profession: Option<string>,
    companyName: Option<string>,
    profilePictureUrl: Option<string>,
    subscriptionPlan: SubscriptionPlan,
    subscriptionStatus: SubscriptionStatus,
    trialEndDate: Option<Time>,
    billingAddress: Option<BillingAddressDoc>,
    paymentMethod: Option<PaymentMethodDoc>,
    preferences: Option<PreferencesDoc>,
    systemPreferences: Option<SystemPreferencesDoc>,
    role: UserRole,
    isVerified: bool,
    twoFactorEnabled: bool,
    lastIp: Option<string>,
    lastDevice: Option<string>,
    status: UserStatus,
    deletedAt: Option<Time>,
    createdAt: Time,
    updatedAt: Time,
    lastLogin: Option<Time>)

  /** A row that has not been soft-deleted: `deleted_at` is a DeleteDateColumn, so
      every repository `find` leaves the other rows out. */
  predicate Live(u: User) {
    u.deletedAt.None?
  }

  /** The account may log in and its tokens are honoured. */
  predicate Authenticatable(u: User) {
    u.status == UserStatus.Active && u.deletedAt.None?
  }

  const TrialDays: int := 30

  /** The preferences document every new account starts with. */
  const DefaultPreferences: PreferencesDoc :=
    PreferencesDoc("pt-BR", Light, "America/Sao_Paulo", Notifications(true, false, false, false))

  /** The row `create` inserts: the given identity fields and hash, the trial
      fields `create` sets, and the column defaults for everything else. */
  function NewUser(id: Id, name: string, email: string, passwordHash: string, now: Time): (u: User)
    ensures u.id == id && u.name == name && u.email == email && u.passwordHash == passwordHash
    ensures u.subscriptionPlan == Free && u.subscriptionStatus == Trial
    ensures u.trialEndDate == Some(now + TrialDays * MillisPerDay)
    ensures u.preferences == Some(DefaultPreferences)
    ensures u.role == Member && !u.isVerified && !u.twoFactorEnabled
    ensures u.status == UserStatus.Active && u.deletedAt == None
    ensures u.createdAt == now && u.updatedAt == now && u.lastLogin == None
    ensures Authenticatable(u)
  {
    User(id, None, name, email, passwordHash, None, None, None, None, None,
         Free, Trial, Some(now + TrialDays * MillisPerDay),
         None, None, Some(DefaultPreferences), None,
         Member, false, false, None, None,
         UserStatus.Active, None, now, now, None)
  }

  // The table as a whole and the constraints the database enforces on it.

  type Rows = map<Id, User>

  /** Every row is stored under its own primary key. */
  predicate WellKeyed(rows: Rows) {
    forall k :: k in rows ==> rows[k].id == k
  }

  /** The UNIQUE index on `email` spans every row, soft-deleted or not. */
  predicate UniqueEmails(rows: Rows) {
    forall a, b :: a in rows && b in rows && rows[a].email == rows[b].email ==> a == b
  }

  /** The UNIQUE index on `cpf_cnpj`; NULLs never collide. */
  predicate UniqueCpfCnpj(rows: Rows) {
    forall a, b :: a in rows && b in rows && rows[a].cpfCnpj.Some? && rows[a].cpfCnpj == rows[b].cpfCnpj ==> a == b
  }

  predicate FitsLength(s: Option<string>, n: nat) {
    s.None? || |s.value| <= n
  }

  /** The varchar(n) limits of the table's columns. */
  predicate FitsColumns(u: User) {
    && |u.name| <= 150
    && |u.email| <= 150
    && FitsLength(u.phone, 20)
    && FitsLength(u.cpfCnpj, 20)
    && FitsLength(u.profession, 100)
    && FitsLength(u.companyName, 150)
    && FitsLength(u.lastDevice, 100)
  }

  /** Every character from position `n` on is a space (U+0020). */
  predicate SpacesFrom(s: string, n: nat) {
    forall i :: n <= i < |s| ==> s[i] == ' '
  }

  /** PostgreSQL's assignment to a varchar(n) column: a value of at most `n`
      characters is kept; a longer one is cut to `n` characters when all the
      excess is spaces, and refused otherwise. */
  function Varchar(s: string, n: nat): (r: Option<string>)
    ensures r.Some? <==> |s| <= n || SpacesFrom(s, n)
    ensures |s| <= n ==> r == Some(s)
    ensures r.Some? ==> |r.value| <= n && r.value <= s && SpacesFrom(s, |r.value|)
  {
    if |s| <= n then Some(s)
    else if SpacesFrom(s, n) then Some(s[..n])
    else None
  }

  /** Storing a stored value again changes nothing, and a value is stored
      as its own longest prefix the column holds. */
  lemma VarcharIdempotent(s: string, n: nat)
    requires Varchar(s, n).Some?
    ensures Varchar(Varchar(s, n).value, n) == Varchar(s, n)
    ensures |s| > n ==> |Varchar(s, n).value| == n
  {
  }

  /** The same for a nullable column: NULL is always stored. */
  function NullableVarchar(o: Option<string>, n: nat): (r: Option<Option<string>>)
    ensures r.Some? <==> o.None? || Varchar(o.value, n).Some?
    ensures r.Some? ==> FitsLength(r.value, n) && (r.value.None? <==> o.None?)
    ensures FitsLength(o, n) ==> r == Some(o)
    ensures r.Some? && o.Some? ==> r.value.value <= o.value && SpacesFrom(o.value, |r.value.value|)
  {
    if o.None? then Some(None)
    else if Varchar(o.value, n).Some? then Some(Some(Varchar(o.value, n).value))
    else None
  }

  /** The row the database actually stores for `u`: every varchar column
      assigned as above, or nothing when some value is refused. */
  function Assign(u: User): (r: Option<User>)
    ensures r.Some? ==> FitsColumns(r.value) && r.value.id == u.id
    ensures FitsColumns(u) ==> r == Some(u)
    ensures r.Some? ==> (r.value.cpfCnpj.None? <==> u.cpfCnpj.None?)
    ensures r.Some? <==> (&& Varchar(u.name, 150).Some? && Varchar(u.email, 150).Some?
                          && NullableVarchar(u.phone, 20).Some? && NullableVarchar(u.cpfCnpj, 20).Some?
                          && NullableVarchar(u.profession, 100).Some? && NullableVarchar(u.companyName, 150).Some?
                          && NullableVarchar(u.lastDevice, 100).Some?)
    ensures r.Some? ==> (&& r.value.name == Varchar(u.name, 150).value
                         && r.value.email == Varchar(u.email, 150).value
                         && r.value.phone == NullableVarchar(u.phone, 20).value
                         && r.value.cpfCnpj == NullableVarchar(u.cpfCnpj, 20).value
                         && r.value.profession == NullableVarchar(u.profession, 100).value
                         && r.value.companyName == NullableVarchar(u.companyName, 150).value
                         && r.value.lastDevice == NullableVarchar(u.lastDevice, 100).value)
    ensures r.Some? ==> r.value.name <= u.name && SpacesFrom(u.name, |r.value.name|)
    ensures r.Some? ==> r.value.email <= u.email && SpacesFrom(u.email, |r.value.email|)
    ensures r.Some? ==>
      r.value.(name := u.name, email := u.email, phone := u.phone, cpfCnpj := u.cpfCnpj,
               profession := u.profession, companyName := u.companyName, lastDevice := u.lastDevice) == u
  {
    var name := Varchar(u.name, 150);
    var email := Varchar(u.email, 150);
    var phone := NullableVarchar(u.phone, 20);
    var cpfCnpj := NullableVarchar(u.cpfCnpj, 20);
    var profession := NullableVarchar(u.profession, 100);
    var companyName := NullableVarchar(u.companyName, 150);
    var lastDevice := NullableVarchar(u.lastDevice, 100);
    if name.Some? && email.Some? && phone.Some? && cpfCnpj.Some? && profession.Some?
       && companyName.Some? && lastDevice.Some?
    then
      Some(u.(name := name.value, email := email.value, phone := phone.value, cpfCnpj := cpfCnpj.value,
              profession := profession.value, companyName := companyName.value, lastDevice := lastDevice.value))
    else None
  }

  /** Storing a new account keeps every column `create` sets except that the
      name and the email go through their varchar(150) columns. */
  lemma AssignNewUser(id: Id, name: string, email: string, passwordHash: string, now: Time)
    ensures Assign(NewUser(id, name, email, passwordHash, now)).Some?
        <==> Varchar(name, 150).Some? && Varchar(email, 150).Some?
    ensures Assign(NewUser(id, name, email, passwordHash, now)).Some? ==>
      Assign(NewUser(id, name, email, passwordHash, now)).value
        == NewUser(id, Varchar(name, 150).value, Varchar(email, 150).value, passwordHash, now)
  {
  }

  predicate TableConstraints(rows: Rows) {
    && WellKeyed(rows)
    && UniqueEmails(rows)
    && UniqueCpfCnpj(rows)
    && forall k :: k in rows ==> FitsColumns(rows[k])
  }

  /** Some row, soft-deleted or not, holds this email. */
  predicate EmailInUse(rows: Rows, email: string) {
    exists k :: k in rows && rows[k].email == email
  }

  // Entities as TypeORM returns them.

  /** Every column of the table, by its database name. */
  const AllColumns: set<string> := {
    "id", "tenant_id", "name", "email", "password_hash", "phone", "cpf_cnpj",
    "profession", "company_name", "profile_picture_url", "subscription_plan",
    "subscription_status", "trial_end_date", "billing_address", "payment_method",
    "preferences", "system_preferences", "role", "is_verified", "two_factor_enabled",
    "last_ip", "last_device", "status", "deleted_at", "created_at", "updated_at", "last_login"
  }

  /** An entity object as a query hands it back: the row it was read from and
      the columns the query selected. A column outside `selected` is
      `undefined` on the object. */
  datatype Loaded = Loaded(row: User, selected: set<string>)

  /** A JavaScript property value, where `undefined` and `null` differ. */
  datatype JsValue<T> = Undefined | Null | Defined(value: T)

  /** `entity.deleted_at` on a loaded entity. */
  function DeletedAtProperty(l: Loaded): (v: JsValue<Time>)
    ensures "deleted_at" !in l.selected <==> v.Undefined?
    ensures v.Null? ==> l.row.deletedAt.None?
    ensures "deleted_at" in l.selected ==> (v.Null? <==> l.row.deletedAt.None?)
    ensures v.Defined? ==> l.row.deletedAt == Some(v.value)
  {
    if "deleted_at" !in l.selected then Undefined
    else if l.row.deletedAt.None? then Null
    else Defined(l.row.deletedAt.value)
  }

  /** The object without its password hash: what both the destructuring
      `{ password_hash, ...rest }` and serialization under `@Exclude()` yield. */
  function OmitPasswordHash(l: Loaded): (r: Loaded)
    ensures "password_hash" !in r.selected
    ensures r.row == l.row && r.selected + {"password_hash"} == l.selected + {"password_hash"}
  {
    Loaded(l.row, l.selected - {"password_hash"})
  }
}
