/**
 * The admin sign-up and sign-in bodies and their validity predicates. `isEmail`
 * stands for validator.js's e-mail check. `extra` holds the names of any other
 * properties the body carries, which the global validation pipe of the local
 * bootstrap rejects (`whitelist` with `forbidNonWhitelisted`).
 */
module AuthDtos {
  import opened Validators

  datatype RegisterDto = RegisterDto(username: string, email: string, password: string, fullName: string, extra: set<string>)

  datatype LoginDto = LoginDto(email: string, password: string, extra: set<string>)

  /** `@MinLength(lo) @MaxLength(hi)`: both measure the length as `@Length` does. */
  predicate MinMax(s: string, lo: nat, hi: nat) {
    lo <= VisibleLength(s) && VisibleLength(s) <= hi
  }

  /** The decorators of `RegisterDto`. */
  predicate ValidRegister(dto: RegisterDto, isEmail: string -> bool) {
    NotEmpty(dto.username) && MinMax(dto.username, 3, 20)
    && isEmail(dto.email) && NotEmpty(dto.email)
    && NotEmpty(dto.password) && MinMax(dto.password, 6, 50)
    && NotEmpty(dto.fullName) && MinMax(dto.fullName, 2, 100)
  }

  /** The decorators of `LoginDto`. */
  predicate ValidLogin(dto: LoginDto, isEmail: string -> bool) {
    isEmail(dto.email) && NotEmpty(dto.email)
    && NotEmpty(dto.password) && MinMax(dto.password, 6, 50)
  }

  /** What the global pipe lets through: the decorators pass and no undeclared property is present. */
  predicate AcceptedRegister(dto: RegisterDto, isEmail: string -> bool) {
    ValidRegister(dto, isEmail) && dto.extra == {}
  }

  predicate AcceptedLogin(dto: LoginDto, isEmail: string -> bool) {
    ValidLogin(dto, isEmail) && dto.extra == {}
  }

  /** An accepted sign-up has a username of 3 to 20 characters and a password of at least 6, counted without variation selectors. */
  lemma RegisterBounds(dto: RegisterDto, isEmail: string -> bool)
    requires AcceptedRegister(dto, isEmail)
    ensures 3 <= |dto.username| && 6 <= |dto.password| && 2 <= |dto.fullName|
    ensures dto.email != ""
  {
  }

  /** For plain text the password rule is exactly a length between 6 and 50. */
  lemma LoginPasswordRule(email: string, password: string, isEmail: string -> bool)
    requires isEmail(email) && email != ""
    requires forall i :: 0 <= i < |password| ==> !IsVariationSelector(password[i])
    ensures AcceptedLogin(LoginDto(email, password, {}), isEmail) <==> 6 <= |password| <= 50
  {
    VisibleLengthPlain(password);
  }

  /** Any property besides `email` and `password` makes the sign-in body rejected, however valid its fields. */
  lemma LoginRejectsExtra(dto: LoginDto, isEmail: string -> bool, name: string)
    requires name in dto.extra
    ensures !AcceptedLogin(dto, isEmail)
  {
  }
}
