/**
 * Admin accounts (auth.service.ts): sign-up with a uniqueness check, sign-in,
 * credential validation, the profile lookup, and the claims and options of the
 * access token. bcrypt and the token signer are parameters.
 */
module AuthService {
  import opened Wrappers
  import opened HttpErrors
  import opened Decimal
  import opened Store
  import opened AuthDtos
  import Strings

  /** An admin row without its password: what `const { password: _, ...rest } = admin` leaves, and what `getProfile` selects. */
  datatype AdminView = AdminView(
    id: nat,
    email: string,
    username: string,
    fullName: string,
    role: string,
    isActive: bool,
    createdAt: int,
    updatedAt: int)

  function View(a: Admin): AdminView {
    AdminView(a.id, a.email, a.username, a.fullName, a.role, a.isActive, a.createdAt, a.updatedAt)
  }

  /** The answer of `register` and `login`. */
  datatype Session = Session(accessToken: string, admin: AdminView)

  /** `bcrypt.hash(password, 10)` and `bcrypt.compare(password, hash)`. */
  datatype Bcrypt = Bcrypt(hash: string -> string, compare: (string, string) -> bool)

  /** The token's payload; `sub` is the subject claim of section 4.1.2 of RFC 7519. */
  datatype Claims = Claims(sub: nat, email: string, role: string)

  /** `expiresIn` as handed to the signer: a number of seconds, or a time-span text such as '7d'. */
  datatype Expiry = Seconds(n: JsNumber) | Span(text: string)

  datatype SignOptions = SignOptions(secret: Option<string>, expiresIn: Expiry)

  /** The settings `JWT_SECRET` and `JWT_EXPIRES_IN`, absent when unset. */
  datatype AuthConfig = AuthConfig(jwtSecret: Option<string>, jwtExpiresIn: Option<string>)

  /** What a token is made from: the settings and `jwtService.sign`. */
  datatype Tokens = Tokens(config: AuthConfig, sign: (Claims, SignOptions) -> string)

  /** `configService.get('JWT_EXPIRES_IN') || '7d'`. */
  function ExpirySetting(config: AuthConfig): (r: string)
    ensures r != ""
    ensures config.jwtExpiresIn.Some? && config.jwtExpiresIn.value != "" ==> r == config.jwtExpiresIn.value
    ensures config.jwtExpiresIn.None? || config.jwtExpiresIn == Some("") ==> r == "7d"
  {
    if config.jwtExpiresIn.Some? && config.jwtExpiresIn.value != "" then config.jwtExpiresIn.value else "7d"
  }

  /** `isNaN(Number(s)) ? s : parseInt(s)`. */
  function ExpiryOf(s: string): (r: Expiry)
    ensures r.Span? <==> !IsNumericText(s)
    ensures r.Span? ==> r.text == s
    ensures r.Seconds? ==> r.n == ParseInt(s)
  {
    if !IsNumericText(s) then Span(s) else Seconds(ParseInt(s))
  }

  /** `generateToken(admin)`. */
  function Token(t: Tokens, a: Admin): string {
    t.sign(Claims(a.id, a.email, a.role), SignOptions(t.config.jwtSecret, ExpiryOf(ExpirySetting(t.config))))
  }

  /** The token depends only on the admin's id, e-mail and role. */
  lemma TokenClaims(t: Tokens, a: Admin, b: Admin)
    requires a.id == b.id && a.email == b.email && a.role == b.role
    ensures Token(t, a) == Token(t, b)
  {
  }

  /** Without the setting the token lives for the span '7d', which `Number` does not read as a number. */
  lemma DefaultExpiry(config: AuthConfig)
    requires config.jwtExpiresIn.None? || config.jwtExpiresIn == Some("")
    ensures ExpiryOf(ExpirySetting(config)) == Span("7d")
  {
    var s := "7d";
    assert Strings.Leading(s) == 0 && Strings.Trailing(s) == 0;
    assert Strings.Trim(s) == s;
    assert ExponentStart(s[1..]) == 1;
    assert ExponentStart(s) == 2;
    assert DigitRun(s[1..], 10) == [];
    assert DigitRun(s, 10) == "7";
    assert !IsMantissa(s);
    assert !IsNumericText(s);
  }

  /** A setting made of decimal digits is that many seconds. */
  lemma DigitExpiry(s: string)
    requires s != "" && AllDigits(s)
    ensures ExpiryOf(s) == Seconds(Num(Value(s, 10)))
  {
    DigitsAreNumeric(s);
    ParseIntOfDigits(s);
  }

  /** A setting of blanks only is a number for `Number` (zero) but NaN for `parseInt`. */
  lemma BlankExpiry(s: string)
    requires s != "" && Strings.AllWhitespace(s)
    ensures ExpiryOf(s) == Seconds(NaN)
  {
    Strings.LeadingSkips(s, []);
    assert s + [] == s;
    assert Strings.TrimStart(s) == [];
    assert Strings.Trim(s) == [];
  }

  /** `parseInt` stops at the exponent that `Number` accepts: '1e3' is one second, not a thousand. */
  lemma ExponentExpiry()
    ensures ExpiryOf("1e3") == Seconds(Num(1))
  {
    var s := "1e3";
    assert Strings.Leading(s) == 0 && Strings.Trailing(s) == 0;
    assert Strings.Trim(s) == s && Strings.TrimStart(s) == s;
    assert ExponentStart(s[1..]) == 0;
    assert ExponentStart(s) == 1;
    assert s[..1] == "1" && s[1..] == "e3";
    assert DigitRun("", 10) == [];
    assert DigitRun("1", 10) == "1";
    assert IsMantissa("1");
    assert IsExponentPart("e3");
    assert IsNumericText(s);
    assert DigitRun(s[1..], 10) == [];
    assert DigitRun(s, 10) == "1";
  }

  lemma {:induction false} DigitsHaveNoExponent(s: string)
    requires AllDigits(s)
    ensures ExponentStart(s) == |s|
  {
    if s != [] {
      DigitsHaveNoExponent(s[1..]);
    }
  }

  /** `Number` reads a non-empty digit string as a number. */
  lemma DigitsAreNumeric(s: string)
    requires s != "" && AllDigits(s)
    ensures IsNumericText(s)
  {
    DigitsTrimmed(s);
    DigitsAreLiteral(s);
    assert IsDigit(s[0]);
  }

  lemma DigitsTrimmed(s: string)
    requires s != "" && AllDigits(s)
    ensures Strings.Trim(s) == s
  {
    assert IsDigit(s[0]) && IsDigit(s[|s| - 1]);
    Strings.TrimPadded([], s, []);
    assert [] + s + [] == s;
  }

  lemma DigitsAreLiteral(s: string)
    requires s != "" && AllDigits(s)
    ensures IsUnsignedDecimalLiteral(s)
  {
    DigitsHaveNoExponent(s);
    DigitRunOfDigits(s);
    assert s[..|s|] == s;
    assert IsMantissa(s);
  }

  /** `login`: an unknown or inactive admin is refused before the password is compared. */
  function Login(admins: seq<Admin>, dto: LoginDto, bcrypt: Bcrypt, t: Tokens): Result<Session, Thrown> {
    var admin := AdminByEmail(admins, dto.email);
    if admin.None? || !admin.value.isActive then Failure(Unauthorized("Invalid credentials or account is inactive"))
    else if !bcrypt.compare(dto.password, admin.value.password) then Failure(Unauthorized("Invalid credentials"))
    else Success(Session(Token(t, admin.value), View(admin.value)))
  }

  /** `validateAdmin`: the same checks, one message for both failures, and only the admin returned. */
  function ValidateAdmin(admins: seq<Admin>, email: string, password: string, bcrypt: Bcrypt): Result<AdminView, Thrown> {
    var admin := AdminByEmail(admins, email);
    if admin.None? || !admin.value.isActive then Failure(Unauthorized("Invalid credentials"))
    else if !bcrypt.compare(password, admin.value.password) then Failure(Unauthorized("Invalid credentials"))
    else Success(View(admin.value))
  }

  /** `getProfile`: the selected fields of an active admin. */
  function GetProfile(admins: seq<Admin>, id: nat): Result<AdminView, Thrown> {
    var admin := AdminById(admins, id);
    if admin.None? || !admin.value.isActive then Failure(Unauthorized("Admin not found or inactive"))
    else Success(View(admin.value))
  }

  /** An active admin with the e-mail whose stored hash matches the password. */
  ghost predicate Matches(admins: seq<Admin>, i: int, email: string, password: string, bcrypt: Bcrypt) {
    0 <= i < |admins| && admins[i].email == email && admins[i].isActive && bcrypt.compare(password, admins[i].password)
  }

  /** With unique e-mails, sign-in succeeds exactly for the admin whose e-mail, activity and password match, and answers with that admin. */
  lemma LoginExactly(admins: seq<Admin>, nextId: nat, dto: LoginDto, bcrypt: Bcrypt, t: Tokens)
    requires AdminsUnique(admins, nextId)
    ensures Login(admins, dto, bcrypt, t).Success? <==> exists i :: Matches(admins, i, dto.email, dto.password, bcrypt)
    ensures forall i :: Matches(admins, i, dto.email, dto.password, bcrypt) ==>
      Login(admins, dto, bcrypt, t) == Success(Session(Token(t, admins[i]), View(admins[i])))
  {
    forall i | Matches(admins, i, dto.email, dto.password, bcrypt)
      ensures Login(admins, dto, bcrypt, t) == Success(Session(Token(t, admins[i]), View(admins[i])))
    {
      AdminByEmailUnique(admins, nextId, i);
    }
    var admin := AdminByEmail(admins, dto.email);
    if Login(admins, dto, bcrypt, t).Success? {
      var i :| 0 <= i < |admins| && admins[i] == admin.value;
      assert Matches(admins, i, dto.email, dto.password, bcrypt);
    }
  }

  /** Without an active admin for the e-mail, the answer does not depend on the password comparison at all. */
  lemma LoginRefusesBeforeCompare(admins: seq<Admin>, dto: LoginDto, b1: Bcrypt, b2: Bcrypt, t: Tokens)
    requires forall i :: 0 <= i < |admins| && admins[i].email == dto.email ==> !admins[i].isActive
    ensures Login(admins, dto, b1, t) == Login(admins, dto, b2, t) == Failure(Unauthorized("Invalid credentials or account is inactive"))
  {
    var admin := AdminByEmail(admins, dto.email);
    if admin.Some? {
      var i :| 0 <= i < |admins| && admins[i] == admin.value;
    }
  }

  /** `validateAdmin` accepts exactly when `login` does, answers with the same admin, and never says which check failed. */
  lemma ValidateAgreesWithLogin(admins: seq<Admin>, dto: LoginDto, bcrypt: Bcrypt, t: Tokens)
    ensures var v, l := ValidateAdmin(admins, dto.email, dto.password, bcrypt), Login(admins, dto, bcrypt, t);
      (v.Success? <==> l.Success?)
      && (v.Success? ==> v.value == l.value.admin)
      && (v.Failure? ==> v.error == Unauthorized("Invalid credentials"))
  {
  }

  /** The profile of an admin is found by id exactly when the admin exists and is active. */
  lemma ProfileExactly(admins: seq<Admin>, nextId: nat, i: nat)
    requires AdminsUnique(admins, nextId) && i < |admins|
    ensures GetProfile(admins, admins[i].id) == if admins[i].isActive then Success(View(admins[i])) else Failure(Unauthorized("Admin not found or inactive"))
  {
    var r := AdminById(admins, admins[i].id);
    var j :| 0 <= j < |admins| && admins[j] == r.value;
    assert j == i;
  }

  /** The password never reaches an answer: two admins that differ only in it give the same view. */
  lemma ViewHidesPassword(a: Admin, password: string)
    ensures View(a.(password := password)) == View(a)
  {
  }

  /** The new state and the answer of `register`. */
  datatype Registration = Registration(tables: Tables, result: Result<Session, Thrown>)

  /** The row `register` inserts, before the database assigns its id. */
  function NewAdmin(dto: RegisterDto, bcrypt: Bcrypt, now: int): Admin {
    Admin(0, dto.email, dto.username, bcrypt.hash(dto.password), dto.fullName, "viewer", true, now, now)
  }

  /** `register`: refuse a taken e-mail or username, otherwise insert a viewer with the hashed password. */
  function RegisterEffect(s: Tables, dto: RegisterDto, bcrypt: Bcrypt, t: Tokens, now: int): Registration {
    if AdminByEmailOrUsername(s.admins, dto.email, dto.username).Some? then
      Registration(s, Failure(BadRequest("Email or username already exists")))
    else
      var row := NewAdmin(dto, bcrypt, now).(id := s.nextId);
      Registration(s.(admins := s.admins + [row], nextId := s.nextId + 1), Success(Session(Token(t, row), View(row))))
  }

  /** A taken e-mail or username is refused and nothing is written. */
  lemma RegisterRefusesTaken(s: Tables, dto: RegisterDto, bcrypt: Bcrypt, t: Tokens, now: int, i: nat)
    requires i < |s.admins| && (s.admins[i].email == dto.email || s.admins[i].username == dto.username)
    ensures RegisterEffect(s, dto, bcrypt, t, now) == Registration(s, Failure(BadRequest("Email or username already exists")))
  {
  }

  /**
   * Otherwise exactly one admin is added: an active viewer holding the hash of
   * the password, not the password; the answer is its view and its token.
   */
  lemma RegisterAddsViewer(s: Tables, dto: RegisterDto, bcrypt: Bcrypt, t: Tokens, now: int)
    requires forall i :: 0 <= i < |s.admins| ==> s.admins[i].email != dto.email && s.admins[i].username != dto.username
    ensures var e := RegisterEffect(s, dto, bcrypt, t, now);
      && e.result.Success?
      && |e.tables.admins| == |s.admins| + 1 && e.tables.admins[..|s.admins|] == s.admins
      && var a := e.tables.admins[|s.admins|];
         && a.role == "viewer" && a.isActive && a.password == bcrypt.hash(dto.password)
         && a.email == dto.email && a.username == dto.username && a.fullName == dto.fullName && a.id == s.nextId
         && e.result.value == Session(Token(t, a), View(a))
         && e.tables == s.(admins := s.admins + [a], nextId := s.nextId + 1)
  {
    var e := RegisterEffect(s, dto, bcrypt, t, now);
    assert e.tables.admins[..|s.admins|] == s.admins;
  }

  /** Registration keeps e-mails, usernames and ids unique, and every other invariant. */
  lemma RegisterKeepsValid(s: Tables, dto: RegisterDto, bcrypt: Bcrypt, t: Tokens, now: int)
    requires ValidTables(s)
    ensures ValidTables(RegisterEffect(s, dto, bcrypt, t, now).tables)
  {
    var e := RegisterEffect(s, dto, bcrypt, t, now);
    if e.result.Success? {
      var a := NewAdmin(dto, bcrypt, now).(id := s.nextId);
      var admins := s.admins + [a];
      assert e.tables.admins == admins;
      assert forall i :: 0 <= i < |s.admins| ==> admins[i] == s.admins[i];
      assert AdminsUnique(admins, s.nextId + 1);
    }
  }

  /** Whoever has just registered can sign in with the same e-mail and password, when bcrypt accepts its own hashes. */
  lemma LoginAfterRegister(s: Tables, dto: RegisterDto, bcrypt: Bcrypt, t: Tokens, now: int)
    requires ValidTables(s)
    requires bcrypt.compare(dto.password, bcrypt.hash(dto.password))
    requires RegisterEffect(s, dto, bcrypt, t, now).result.Success?
    ensures var e := RegisterEffect(s, dto, bcrypt, t, now);
      Login(e.tables.admins, LoginDto(dto.email, dto.password, {}), bcrypt, t) == e.result
  {
    var e := RegisterEffect(s, dto, bcrypt, t, now);
    RegisterKeepsValid(s, dto, bcrypt, t, now);
    var n := |s.admins|;
    assert e.tables.admins[n].email == dto.email;
    AdminByEmailUnique(e.tables.admins, e.tables.nextId, n);
  }

  /** The service over the admin table. */
  class AuthService {
    const db: Db
    const bcrypt: Bcrypt
    const tokens: Tokens

    constructor (db: Db, bcrypt: Bcrypt, tokens: Tokens)
      ensures this.db == db && this.bcrypt == bcrypt && this.tokens == tokens
    {
      this.db := db;
      this.bcrypt := bcrypt;
      this.tokens := tokens;
    }

    /** `register(dto)`: look for a clash, hash, insert, answer with the view and a token. */
    method Register(dto: RegisterDto, now: int) returns (r: Result<Session, Thrown>)
      modifies db
      ensures db.State() == RegisterEffect(old(db.State()), dto, bcrypt, tokens, now).tables
      ensures r == RegisterEffect(old(db.State()), dto, bcrypt, tokens, now).result
    {
      var existing := AdminByEmailOrUsername(db.admins, dto.email, dto.username);
      if existing.Some? {
        return Failure(BadRequest("Email or username already exists"));
      }
      var hashed := bcrypt.hash(dto.password);
      var admin := db.CreateAdmin(Admin(0, dto.email, dto.username, hashed, dto.fullName, "viewer", true, now, now));
      r := Success(Session(Token(tokens, admin), View(admin)));
    }
  }
}
