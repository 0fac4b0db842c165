/** The registration payload and the checks its decorators make before it
    reaches the service. */
module CreateUserValidation {
  import opened ClassValidator

  datatype CreateUserDto = CreateUserDto(name: string, email: string, password: string)

  /** `@IsEmail()` is a library check of the address syntax; the model takes it
      as a parameter. */
  type EmailCheck = string -> bool

  /** `@IsNotEmpty()` and `@MaxLength(150)`: a name of 1 to 150 code points
      always passes, and one that passes is not empty. */
  function ValidName(name: string): (b: bool)
    ensures b ==> 1 <= |name| && ValidatorLength(name) <= 150
    ensures 1 <= |name| <= 150 ==> b
  {
    IsNotEmpty(name) && MaxLength(name, 150)
  }

  /** `@IsEmail()`, `@IsNotEmpty()` and `@MaxLength(150)`. */
  function ValidEmail(email: string, isEmail: EmailCheck): (b: bool)
    ensures b ==> isEmail(email) && 1 <= |email| && ValidatorLength(email) <= 150
    ensures isEmail(email) && 1 <= |email| <= 150 ==> b
  {
    isEmail(email) && IsNotEmpty(email) && MaxLength(email, 150)
  }

  /** `@IsNotEmpty()` and `@MinLength(6)`: the minimum length alone decides,
      and a password that passes has at least six code points. */
  function ValidPassword(password: string): (b: bool)
    ensures b <==> MinLength(password, 6)
    ensures b ==> |password| >= 6
  {
    IsNotEmpty(password) && MinLength(password, 6)
  }

  /** Every decorator on the payload passes; a payload with a name and an
      email of 1 to 150 code points, an address `@IsEmail()` accepts and a
      password of six measured characters always does. */
  function Accepts(dto: CreateUserDto, isEmail: EmailCheck): (b: bool)
    ensures (1 <= |dto.name| <= 150 && 1 <= |dto.email| <= 150 && isEmail(dto.email)
             && ValidatorLength(dto.password) >= 6) ==> b
  {
    ValidName(dto.name) && ValidEmail(dto.email, isEmail) && ValidPassword(dto.password)
  }

  /** What an accepted payload guarantees: a name and an email of 1 to 150
      measured characters, and a password of at least 6 code points. */
  lemma AcceptedPayload(dto: CreateUserDto, isEmail: EmailCheck)
    requires Accepts(dto, isEmail)
    ensures 1 <= |dto.name| && ValidatorLength(dto.name) <= 150
    ensures 1 <= |dto.email| && ValidatorLength(dto.email) <= 150 && isEmail(dto.email)
    ensures |dto.password| >= 6
  {
  }
}
