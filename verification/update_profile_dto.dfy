/** The profile-update payload and its field checks: the enum fields, the three
    patterns (phone, CPF/CNPJ, CEP) and the maximum lengths. */
module UpdateProfileValidation {
  import opened Common
  import opened ClassValidator
  import opened UserEntity

  // The enum checks: `@IsEnum(E)` accepts exactly the string values of E.

  function ParsePlan(s: string): (r: Option<SubscriptionPlan>)
    ensures r.Some? ==> r.value.Value() == s
    ensures r.None? ==> forall p: SubscriptionPlan :: p.Value() != s
  {
    if s == "free" then Some(Free)
    else if s == "basic" then Some(Basic)
    else if s == "pro" then Some(Pro)
    else if s == "enterprise" then Some(Enterprise)
    else None
  }

  function ParseSubscriptionStatus(s: string): (r: Option<SubscriptionStatus>)
    ensures r.Some? ==> r.value.Value() == s
    ensures r.None? ==> forall p: SubscriptionStatus :: p.Value() != s
  {
    if s == "active" then Some(SubscriptionStatus.Active)
    else if s == "trial" then Some(Trial)
    else if s == "canceled" then Some(Canceled)
    else if s == "suspended" then Some(SubscriptionStatus.Suspended)
    else None
  }

  function ParseRole(s: string): (r: Option<UserRole>)
    ensures r.Some? ==> r.value.Value() == s
    ensures r.None? ==> forall p: UserRole :: p.Value() != s
  {
    if s == "owner" then Some(Owner)
    else if s == "admin" then Some(Admin)
    else if s == "member" then Some(Member)
    else None
  }

  /** UserStatus has exactly the three values active, suspended and blocked. */
  function ParseUserStatus(s: string): (r: Option<UserStatus>)
    ensures r.Some? <==> s == "active" || s == "suspended" || s == "blocked"
    ensures r.Some? ==> r.value.Value() == s
    ensures r.None? ==> forall p: UserStatus :: p.Value() != s
  {
    if s == "active" then Some(UserStatus.Active)
    else if s == "suspended" then Some(UserStatus.Suspended)
    else if s == "blocked" then Some(Blocked)
    else None
  }

  /** `@IsEnum(['light', 'dark', 'auto'])` */
  function ParseTheme(s: string): (r: Option<Theme>)
    ensures r.Some? <==> s == "light" || s == "dark" || s == "auto"
    ensures r.Some? ==> r.value.Value() == s
  {
    if s == "light" then Some(Light)
    else if s == "dark" then Some(Dark)
    else if s == "auto" then Some(Auto)
    else None
  }

  /** `@IsEnum(['credit_card', 'pix', 'boleto'])` */
  function ParsePaymentType(s: string): (r: Option<PaymentType>)
    ensures r.Some? <==> s == "credit_card" || s == "pix" || s == "boleto"
    ensures r.Some? ==> r.value.Value() == s
  {
    if s == "credit_card" then Some(CreditCard)
    else if s == "pix" then Some(Pix)
    else if s == "boleto" then Some(Boleto)
    else None
  }

  /** Every enum value survives the trip to its stored string and back. */
  lemma EnumValuesParse(p: SubscriptionPlan, ss: SubscriptionStatus, role: UserRole, st: UserStatus, t: Theme, k: PaymentType)
    ensures ParsePlan(p.Value()) == Some(p)
    ensures ParseSubscriptionStatus(ss.Value()) == Some(ss)
    ensures ParseRole(role.Value()) == Some(role)
    ensures ParseUserStatus(st.Value()) == Some(st)
    ensures ParseTheme(t.Value()) == Some(t)
    ensures ParsePaymentType(k.Value()) == Some(k)
  {
  }

  // Phone: `@MaxLength(20)` and `/^\+?[\d\s\-\(\)]+$/`.

  predicate IsPhoneChar(c: char) {
    IsDigit(c) || IsJsWhitespace(c) || c == '-' || c == '(' || c == ')'
  }

  predicate AllPhoneChars(s: string) {
    forall i :: 0 <= i < |s| ==> IsPhoneChar(s[i])
  }

  /** What the pattern means: an optional '+' (the first `skip` characters)
      followed by one or more phone characters, up to the end. */
  ghost predicate PhonePatternMatches(s: string) {
    exists skip: nat :: skip <= 1 && skip < |s| && (skip == 1 ==> s[0] == '+') && AllPhoneChars(s[skip..])
  }

  /** The pattern, tried the way the matcher tries it: take a leading '+' if
      there is one, then the character class to the end. */
  predicate PhoneShape(s: string) {
    if |s| > 0 && s[0] == '+' then |s| >= 2 && AllPhoneChars(s[1..])
    else |s| >= 1 && AllPhoneChars(s)
  }

  /** `@MaxLength(20)` and the pattern, read as the pattern means. */
  function ValidPhone(s: string): (b: bool)
    ensures b <==> MaxLength(s, 20) && PhonePatternMatches(s)
  {
    PhoneShapeIsPattern(s);
    MaxLength(s, 20) && PhoneShape(s)
  }

  /** Taking the '+' greedily loses no match: a '+' is not a phone character,
      so the other choice never succeeds. */
  lemma PhoneShapeIsPattern(s: string)
    ensures PhoneShape(s) <==> PhonePatternMatches(s)
  {
    if PhoneShape(s) {
      var skip := if |s| > 0 && s[0] == '+' then 1 else 0;
      assert s[skip..] == if skip == 1 then s[1..] else s;
    }
    if PhonePatternMatches(s) {
      var skip: nat :| skip <= 1 && skip < |s| && (skip == 1 ==> s[0] == '+') && AllPhoneChars(s[skip..]);
      assert skip == 0 && |s| > 0 && s[0] == '+' ==> !IsPhoneChar(s[skip..][0]);
    }
  }

  /** An accepted phone holds no variation selector, so it fits the varchar(20)
      column. */
  lemma ValidPhoneFitsColumn(s: string)
    requires ValidPhone(s)
    ensures |s| <= 20 && |s| >= 1
  {
    var skip := if s[0] == '+' then 1 else 0;
    forall i | 0 <= i < |s| ensures !IsVariationSelector(s[i]) {
      if i >= skip {
        assert s[i] == s[skip..][i - skip];
      }
    }
  }

  // CPF/CNPJ: `@MaxLength(20)` and `/^\d{11}$|^\d{14}$/`.

  /** The pattern alone decides: an accepted value is 11 or 14 digits, so
      `@MaxLength(20)` never rejects anything the pattern lets through. */
  function ValidCpfCnpj(s: string): (b: bool)
    ensures b <==> AllDigits(s) && (|s| == 11 || |s| == 14)
  {
    if AllDigits(s) then
      DigitsHaveNoSelectors(s);
      MaxLength(s, 20) && (|s| == 11 || |s| == 14)
    else false
  }

  // CEP: `/^\d{5}-?\d{3}$/`.

  /** What the pattern means: five digits, an optional '-', three digits. */
  ghost predicate CepPatternMatches(s: string) {
    exists head: string, sep: string, tail: string ::
      s == head + sep + tail && |head| == 5 && AllDigits(head) && (sep == "" || sep == "-") && |tail| == 3 && AllDigits(tail)
  }

  /** The pattern, tried the way the matcher tries it. */
  predicate ZipShape(s: string) {
    || (|s| == 8 && AllDigits(s))
    || (|s| == 9 && AllDigits(s[..5]) && s[5] == '-' && AllDigits(s[6..]))
  }

  lemma ZipCodeIsPattern(s: string)
    ensures ZipShape(s) <==> CepPatternMatches(s)
    ensures ZipShape(s) ==> |s| == 8 || |s| == 9
  {
    if ZipShape(s) {
      if |s| == 8 {
        assert s == s[..5] + "" + s[5..];
      } else {
        assert s == s[..5] + "-" + s[6..];
      }
    }
    if CepPatternMatches(s) {
      var head: string, sep: string, tail: string :|
        s == head + sep + tail && |head| == 5 && AllDigits(head) && (sep == "" || sep == "-") && |tail| == 3 && AllDigits(tail);
      if sep == "" {
        assert forall i :: 0 <= i < |s| ==> s[i] == if i < 5 then head[i] else tail[i - 5];
      } else {
        assert s[..5] == head && s[5] == '-' && s[6..] == tail;
      }
    }
  }

  /** `@Matches(/^\d{5}-?\d{3}$/)` on a CEP: eight or nine characters. */
  function ValidZipCode(s: string): (b: bool)
    ensures b <==> CepPatternMatches(s)
    ensures b ==> |s| == 8 || |s| == 9
  {
    ZipCodeIsPattern(s);
    ZipShape(s)
  }

  // The payload.

  datatype BillingAddressDto = BillingAddressDto(
    street: string, number: string, complement: Option<string>, neighborhood: string,
    city: string, state: string, zipCode: string, country: string)

  datatype PaymentMethodDto = PaymentMethodDto(
    kind: string, cardLastFour: Option<string>, cardBrand: Option<string>,
    pixKey: Option<string>, bankAccount: Option<string>)

  datatype PreferencesDto = PreferencesDto(
    language: string, theme: string, timezone: string, notifications: Notifications)

  /** Every field is optional: `None` is an absent (or null) property, which
      `@IsOptional()` lets through unchecked. */
  datatype UpdateProfileDto = UpdateProfileDto(
    tenantId: Option<string>,
    name: Option<string>,
    email: Option<string>,
    phone: Option<string>,
    cpfCnpj: Option<string>,
    profession: Option<string>,
    companyName: Option<string>,
    profilePictureUrl: Option<string>,
    subscriptionPlan: Option<string>,
    subscriptionStatus: Option<string>,
    trialEndDate: Option<string>,
    billingAddress: Option<BillingAddressDto>,
    paymentMethod: Option<PaymentMethodDto>,
    preferences: Option<PreferencesDto>,
    systemPreferences: Option<SystemPreferencesDoc>,
    role: Option<string>,
    isVerified: Option<bool>,
    twoFactorEnabled: Option<bool>,
    lastDevice: Option<string>,
    status: Option<string>)

  const EmptyProfileDto: UpdateProfileDto :=
    UpdateProfileDto(None, None, None, None, None, None, None, None, None, None,
                     None, None, None, None, None, None, None, None, None, None)

  /** The library format checks the payload uses (`@IsEmail()`, `@IsUUID(4)`,
      `@IsDateString()`), taken as parameters. */
  datatype FormatChecks = FormatChecks(
    isEmail: string -> bool, isUuid4: string -> bool, isDateString: string -> bool)

  /** An optional property passes its checks. */
  predicate OptionalOk(v: Option<string>, check: string -> bool) {
    v.None? || check(v.value)
  }

  predicate ValidBillingAddress(a: BillingAddressDto) {
    ValidZipCode(a.zipCode)
  }

  predicate ValidPaymentMethod(m: PaymentMethodDto) {
    ParsePaymentType(m.kind).Some?
  }

  predicate ValidPreferences(p: PreferencesDto) {
    ParseTheme(p.theme).Some?
  }

  /** Every decorator on the payload passes; every property is `@IsOptional()`,
      so the empty payload passes whatever the format checks are. */
  function Accepts(dto: UpdateProfileDto, formats: FormatChecks): (b: bool)
    ensures dto == EmptyProfileDto ==> b
  {
    && OptionalOk(dto.tenantId, formats.isUuid4)
    && OptionalOk(dto.name, s => MaxLength(s, 150))
    && OptionalOk(dto.email, s => formats.isEmail(s) && MaxLength(s, 150))
    && OptionalOk(dto.phone, ValidPhone)
    && OptionalOk(dto.cpfCnpj, ValidCpfCnpj)
    && OptionalOk(dto.profession, s => MaxLength(s, 100))
    && OptionalOk(dto.companyName, s => MaxLength(s, 150))
    && OptionalOk(dto.subscriptionPlan, s => ParsePlan(s).Some?)
    && OptionalOk(dto.subscriptionStatus, s => ParseSubscriptionStatus(s).Some?)
    && OptionalOk(dto.trialEndDate, formats.isDateString)
    && (dto.billingAddress.None? || ValidBillingAddress(dto.billingAddress.value))
    && (dto.paymentMethod.None? || ValidPaymentMethod(dto.paymentMethod.value))
    && (dto.preferences.None? || ValidPreferences(dto.preferences.value))
    && OptionalOk(dto.role, s => ParseRole(s).Some?)
    && OptionalOk(dto.lastDevice, s => MaxLength(s, 100))
    && OptionalOk(dto.status, s => ParseUserStatus(s).Some?)
  }

  /** What an accepted payload guarantees about each field it carries. */
  lemma AcceptedPayload(dto: UpdateProfileDto, formats: FormatChecks)
    requires Accepts(dto, formats)
    ensures dto.name.Some? ==> ValidatorLength(dto.name.value) <= 150
    ensures dto.email.Some? ==> ValidatorLength(dto.email.value) <= 150 && formats.isEmail(dto.email.value)
    ensures dto.profession.Some? ==> ValidatorLength(dto.profession.value) <= 100
    ensures dto.companyName.Some? ==> ValidatorLength(dto.companyName.value) <= 150
    ensures dto.lastDevice.Some? ==> ValidatorLength(dto.lastDevice.value) <= 100
    ensures dto.phone.Some? ==> 1 <= |dto.phone.value| <= 20 && PhonePatternMatches(dto.phone.value)
    ensures dto.cpfCnpj.Some? ==> AllDigits(dto.cpfCnpj.value) && (|dto.cpfCnpj.value| == 11 || |dto.cpfCnpj.value| == 14)
    ensures dto.billingAddress.Some? ==>
      |dto.billingAddress.value.zipCode| in {8, 9} && CepPatternMatches(dto.billingAddress.value.zipCode)
    ensures dto.paymentMethod.Some? ==> dto.paymentMethod.value.kind in {"credit_card", "pix", "boleto"}
    ensures dto.preferences.Some? ==> dto.preferences.value.theme in {"light", "dark", "auto"}
    ensures dto.status.Some? ==> dto.status.value in {"active", "suspended", "blocked"}
  {
    if dto.phone.Some? {
      ValidPhoneFitsColumn(dto.phone.value);
    }
  }
}
