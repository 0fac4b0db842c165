/** The profile-completeness score: which of five required and six optional
    fields are filled in, and the rounded percentage of the eleven. */
module Completeness {
  import opened Common
  import opened UserEntity

  /** The profile fields the score looks at; `Key()` is the property name the
      source lists them by. */
  datatype ProfileField =
    | Name | Email | Phone | CpfCnpj | Profession
    | CompanyName | ProfilePictureUrl | BillingAddress | PaymentMethod | Preferences | SystemPreferences
  {
    function Key(): string {
      match this
      case Name => "name"
      case Email => "email"
      case Phone => "phone"
      case CpfCnpj => "cpf_cnpj"
      case Profession => "profession"
      case CompanyName => "company_name"
      case ProfilePictureUrl => "profile_picture_url"
      case BillingAddress => "billing_address"
      case PaymentMethod => "payment_method"
      case Preferences => "preferences"
      case SystemPreferences => "system_preferences"
    }
  }

  const RequiredFields: seq<ProfileField> := [Name, Email, Phone, CpfCnpj, Profession]

  const OptionalFields: seq<ProfileField> :=
    [CompanyName, ProfilePictureUrl, BillingAddress, PaymentMethod, Preferences, SystemPreferences]

  /** A nullable text column is truthy when it holds a non-empty string. */
  predicate TextTruthy(s: Option<string>) {
    s.Some? && s.value != ""
  }

  /** JavaScript truthiness of `user[field]`: an empty string or null is
      falsy, any document (even an empty one) is truthy. */
  predicate Truthy(u: User, field: ProfileField) {
    match field
    case Name => u.name != ""
    case Email => u.email != ""
    case Phone => TextTruthy(u.phone)
    case CpfCnpj => TextTruthy(u.cpfCnpj)
    case Profession => TextTruthy(u.profession)
    case CompanyName => TextTruthy(u.companyName)
    case ProfilePictureUrl => TextTruthy(u.profilePictureUrl)
    case BillingAddress => u.billingAddress.Some?
    case PaymentMethod => u.paymentMethod.Some?
    case Preferences => u.preferences.Some?
    case SystemPreferences => u.systemPreferences.Some?
  }

  /** `fields.filter(f => !!user[f] == keep)` */
  function Filter(fields: seq<ProfileField>, u: User, keep: bool): seq<ProfileField> {
    if fields == [] then []
    else Pick(fields[0], u, keep) + Filter(fields[1..], u, keep)
  }

  /** The field alone when its truthiness is the wanted one, otherwise nothing. */
  function Pick(f: ProfileField, u: User, keep: bool): seq<ProfileField> {
    if Truthy(u, f) == keep then [f] else []
  }

  /** `a` is `b` with some elements left out, the rest in their order. */
  predicate IsSubsequence<T(==)>(a: seq<T>, b: seq<T>)
    decreases |b|
  {
    if a == [] then true
    else if b == [] then false
    else (a[0] == b[0] && IsSubsequence(a[1..], b[1..])) || IsSubsequence(a, b[1..])
  }

  /** The two filters split the fields: every field lands in exactly one. */
  lemma {:induction false} FilterSplits(fields: seq<ProfileField>, u: User)
    ensures |Filter(fields, u, true)| + |Filter(fields, u, false)| == |fields|
  {
    if fields != [] {
      FilterSplits(fields[1..], u);
    }
  }

  /** A filter keeps exactly the fields of the wanted truthiness, in
      declaration order. */
  lemma {:induction false} FilterKeepsOrder(fields: seq<ProfileField>, u: User, keep: bool)
    ensures IsSubsequence(Filter(fields, u, keep), fields)
    ensures forall f :: f in Filter(fields, u, keep) <==> f in fields && Truthy(u, f) == keep
  {
    if fields != [] {
      FilterKeepsOrder(fields[1..], u, keep);
      var rest := Filter(fields[1..], u, keep);
      if Truthy(u, fields[0]) == keep {
        assert Filter(fields, u, keep) == [fields[0]] + rest;
        assert ([fields[0]] + rest)[1..] == rest;
      } else {
        assert Filter(fields, u, keep) == rest;
      }
    }
  }

  /** `Math.round(completed / 11 * 100)`, in integers: round half up of
      100 * completed / 11. */
  function RoundedPercentage(completed: nat): (p: int)
    requires completed <= 11
    ensures 0 <= p <= 100
    ensures p == 100 <==> completed == 11
    ensures -11 < 2 * (11 * p - 100 * completed) < 11
  {
    (200 * completed + 11) / 22
  }

  /** 100 * k / 11 is never halfway between two integers, so the rounded value
      is the one nearest integer and no rounding rule could pick another. */
  lemma RoundedPercentageIsNearest(completed: nat, q: int)
    requires completed <= 11
    ensures var p := RoundedPercentage(completed);
      q != p ==> Abs(11 * q - 100 * completed) > Abs(11 * p - 100 * completed)
  {
  }

  function Abs(x: int): nat {
    if x < 0 then -x else x
  }

  /** The object `getProfileCompleteness` returns. */
  datatype Report = Report(
    percentage: int,
    completedRequired: nat, totalRequired: nat,
    completedOptional: nat, totalOptional: nat,
    missingRequired: seq<ProfileField>, missingOptional: seq<ProfileField>)

  /** `getProfileCompleteness` on a loaded user; its properties are stated by
      `ScoreProperties`. */
  function Score(u: User): (r: Report)
    ensures r.totalRequired == 5 && r.totalOptional == 6
  {
    var completedRequired := |Filter(RequiredFields, u, true)|;
    var completedOptional := |Filter(OptionalFields, u, true)|;
    FilterSplits(RequiredFields, u);
    FilterSplits(OptionalFields, u);
    Report(
      RoundedPercentage(completedRequired + completedOptional),
      completedRequired, |RequiredFields|,
      completedOptional, |OptionalFields|,
      Filter(RequiredFields, u, false), Filter(OptionalFields, u, false))
  }

  /** What the report means: each group's completed and missing fields add up
      to its total, the missing lists are exactly the falsy fields in
      declaration order, and the percentage is the rounded share of the
      eleven, 100 only when nothing is missing. */
  lemma ScoreProperties(u: User)
    ensures var r := Score(u);
      && r.completedRequired <= 5 && r.completedOptional <= 6
      && r.completedRequired + |r.missingRequired| == r.totalRequired
      && r.completedOptional + |r.missingOptional| == r.totalOptional
      && IsSubsequence(r.missingRequired, RequiredFields) && IsSubsequence(r.missingOptional, OptionalFields)
      && (forall f :: f in r.missingRequired <==> f in RequiredFields && !Truthy(u, f))
      && (forall f :: f in r.missingOptional <==> f in OptionalFields && !Truthy(u, f))
      && 0 <= r.percentage <= 100
      && (r.percentage == 100 <==> r.missingRequired == [] && r.missingOptional == [])
      && -11 < 2 * (11 * r.percentage - 100 * (r.completedRequired + r.completedOptional)) < 11
  {
    FilterSplits(RequiredFields, u);
    FilterSplits(OptionalFields, u);
    FilterKeepsOrder(RequiredFields, u, false);
    FilterKeepsOrder(OptionalFields, u, false);
  }

  /** The required group of an account with a name and an email and no
      phone, cpf_cnpj or profession. */
  lemma OnlyNameAndEmailRequired(u: User)
    requires u.name != "" && u.email != ""
    requires !TextTruthy(u.phone) && !TextTruthy(u.cpfCnpj) && !TextTruthy(u.profession)
    ensures Filter(RequiredFields, u, true) == [Name, Email]
    ensures Filter(RequiredFields, u, false) == [Phone, CpfCnpj, Profession]
  {
    FilterRequired(u, true);
    FilterRequired(u, false);
  }

  /** The optional group of an account that fills none of it. */
  lemma NoOptional(u: User)
    requires !TextTruthy(u.companyName) && !TextTruthy(u.profilePictureUrl)
    requires u.billingAddress.None? && u.paymentMethod.None? && u.preferences.None? && u.systemPreferences.None?
    ensures Filter(OptionalFields, u, true) == []
    ensures Filter(OptionalFields, u, false) == OptionalFields
  {
    FilterOptional(u, true);
    FilterOptional(u, false);
  }

  /** The optional group of an account whose only document is its preferences. */
  lemma OnlyPreferencesOptional(u: User)
    requires !TextTruthy(u.companyName) && !TextTruthy(u.profilePictureUrl)
    requires u.billingAddress.None? && u.paymentMethod.None? && u.preferences.Some? && u.systemPreferences.None?
    ensures Filter(OptionalFields, u, true) == [Preferences]
    ensures Filter(OptionalFields, u, false) == [CompanyName, ProfilePictureUrl, BillingAddress, PaymentMethod, SystemPreferences]
  {
    FilterOptional(u, true);
    FilterOptional(u, false);
  }

  /** An account with only a name and an email filled in scores 2 of 5 and 0
      of 6, which rounds to 18%. */
  lemma NameAndEmailOnly(u: User)
    requires u.name != "" && u.email != ""
    requires !TextTruthy(u.phone) && !TextTruthy(u.cpfCnpj) && !TextTruthy(u.profession)
    requires !TextTruthy(u.companyName) && !TextTruthy(u.profilePictureUrl)
    requires u.billingAddress.None? && u.paymentMethod.None? && u.preferences.None? && u.systemPreferences.None?
    ensures Score(u) == Report(18, 2, 5, 0, 6, [Phone, CpfCnpj, Profession], OptionalFields)
  {
    OnlyNameAndEmailRequired(u);
    NoOptional(u);
    assert RoundedPercentage(2) == 18;
  }

  /** The same account once it also has a preferences document: 3 of 11,
      which rounds to 27%. */
  lemma NameEmailAndPreferencesOnly(u: User)
    requires u.name != "" && u.email != ""
    requires !TextTruthy(u.phone) && !TextTruthy(u.cpfCnpj) && !TextTruthy(u.profession)
    requires !TextTruthy(u.companyName) && !TextTruthy(u.profilePictureUrl)
    requires u.billingAddress.None? && u.paymentMethod.None? && u.preferences.Some? && u.systemPreferences.None?
    ensures Score(u) == Report(27, 2, 5, 1, 6, [Phone, CpfCnpj, Profession],
                               [CompanyName, ProfilePictureUrl, BillingAddress, PaymentMethod, SystemPreferences])
  {
    OnlyNameAndEmailRequired(u);
    OnlyPreferencesOptional(u);
    assert RoundedPercentage(3) == 27;
  }

  /** A freshly registered account has its name, email and default preferences
      and nothing else, so it scores 27%. */
  lemma NewAccountScore(id: Id, name: string, email: string, hash: string, now: Time)
    requires name != "" && email != ""
    ensures Score(NewUser(id, name, email, hash, now)).percentage == 27
    ensures Score(NewUser(id, name, email, hash, now)).missingRequired == [Phone, CpfCnpj, Profession]
  {
    NameEmailAndPreferencesOnly(NewUser(id, name, email, hash, now));
  }

  /** `Filter` over the required fields, written out field by field. */
  lemma FilterRequired(u: User, keep: bool)
    ensures Filter(RequiredFields, u, keep) ==
      Pick(Name, u, keep) + (Pick(Email, u, keep) + (Pick(Phone, u, keep)
      + (Pick(CpfCnpj, u, keep) + Pick(Profession, u, keep))))
  {
    FilterStep(RequiredFields, u, keep, 5);
    FilterStep(RequiredFields, u, keep, 4);
    FilterStep(RequiredFields, u, keep, 3);
    FilterStep(RequiredFields, u, keep, 2);
    FilterStep(RequiredFields, u, keep, 1);
    FilterStep(RequiredFields, u, keep, 0);
    assert RequiredFields[0..] == RequiredFields;
  }

  /** `Filter` over the optional fields, written out field by field. */
  lemma FilterOptional(u: User, keep: bool)
    ensures Filter(OptionalFields, u, keep) ==
      Pick(CompanyName, u, keep) + (Pick(ProfilePictureUrl, u, keep) + (Pick(BillingAddress, u, keep)
      + (Pick(PaymentMethod, u, keep) + (Pick(Preferences, u, keep) + Pick(SystemPreferences, u, keep)))))
  {
    FilterOptionalTail(u, keep);
    FilterStep(OptionalFields, u, keep, 2);
    FilterStep(OptionalFields, u, keep, 1);
    FilterStep(OptionalFields, u, keep, 0);
    assert OptionalFields[0..] == OptionalFields;
  }

  /** The last three optional fields, written out. */
  lemma FilterOptionalTail(u: User, keep: bool)
    ensures Filter(OptionalFields[3..], u, keep) ==
      Pick(PaymentMethod, u, keep) + (Pick(Preferences, u, keep) + Pick(SystemPreferences, u, keep))
  {
    FilterStep(OptionalFields, u, keep, 6);
    FilterStep(OptionalFields, u, keep, 5);
    FilterStep(OptionalFields, u, keep, 4);
    FilterStep(OptionalFields, u, keep, 3);
  }

  /** One step of `Filter` on a suffix of a list. */
  lemma FilterStep(fields: seq<ProfileField>, u: User, keep: bool, i: nat)
    requires i <= |fields|
    ensures i == |fields| ==> Filter(fields[i..], u, keep) == []
    ensures i < |fields| ==> Filter(fields[i..], u, keep) == Pick(fields[i], u, keep) + Filter(fields[i + 1..], u, keep)
  {
    if i < |fields| {
      assert fields[i..][1..] == fields[i + 1..];
    }
  }
}
