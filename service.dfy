/**
 * UsersService: two-phase registration (register, then activation with the mailed
 * code), login, and the three request-field operations. The pure functions state what
 * each step computes from the store and its inputs; the class methods run the steps in
 * the source's order against the shared store and are proved equal to them.
 */
module Service {
  import opened Wrappers
  import opened Entities
  import opened Prisma
  import opened Http
  import Jwt
  import Bcrypt
  import Decimal

  /** `expiresIn: '10m'` on the activation ticket, in seconds. */
  const ActivationTtl: int := 600

  const ActivationSubject := "Activate your account"
  const ActivationTemplate := "./activation-email"

  const EmailExists := "Email already exists"
  const InvalidActivationCode := "Invalid activation code"
  const UserAlreadyExists := "User already exist with this email"
  const InvalidCredentials := "Invalid email or password"
  const LoggedOut := "Logged out successfully"

  datatype RegisterDto = RegisterDto(name: string, email: string, password: string, phone_number: string)

  datatype ActivationDto = ActivationDto(activationToken: Token, activationCode: string)

  /** The options handed to the email service: one message to the registrant. */
  datatype Mail = Mail(email: string, subject: string, template: string, name: string, activationCode: string)

  /** What `createActivationToken` returns: the signed ticket and, separately, the code. */
  datatype ActivationTicket = ActivationTicket(token: Token, activationCode: string)

  datatype LoginResponse = LoginResponse(
    user: Option<User>,
    accessToken: Option<Token>,
    refreshToken: Option<Token>,
    error: Option<string>)

  // ---------------------------------------------------------------- activation code

  /** `Math.floor(1000 * r * 9000)` for a draw `r` of `Math.random()`. */
  function ActivationNumber(random: real): (n: nat)
    requires 0.0 <= random < 1.0
    ensures n < 9000000
  {
    var x := 1000.0 * random * 9000.0;
    assert 0.0 <= x < 9000000.0;
    x.Floor
  }

  /** `.toString()` of that number: one to seven digits, not always four. */
  function ActivationCode(random: real): (code: string)
    requires 0.0 <= random < 1.0
    ensures 1 <= |code| <= 7
    ensures forall i :: 0 <= i < |code| ==> Decimal.IsDigit(code[i])
    ensures Decimal.ParseDecimal(code) == ActivationNumber(random)
  {
    var n := ActivationNumber(random);
    Decimal.DecimalStringLength(n, 7);
    Decimal.ParseDecimalString(n);
    assert Decimal.Pow10(7) == 10000000 by {
      assert Decimal.Pow10(3) == 1000;
      assert Decimal.Pow10(5) == 100000;
    }
    Decimal.DecimalString(n)
  }

  /** The code has exactly four digits only when the draw lands in [1000, 10000). */
  lemma ActivationCodeLength(random: real)
    requires 0.0 <= random < 1.0
    ensures |ActivationCode(random)| == 4 <==> 1000 <= ActivationNumber(random) < 10000
  {
    var n := ActivationNumber(random);
    Decimal.DecimalStringLength(n, 4);
    Decimal.DecimalStringLength(n, 3);
    assert Decimal.Pow10(3) == 1000;
    assert Decimal.Pow10(4) == 10000;
  }

  /** Two draws give the same code exactly when they give the same number. */
  lemma ActivationCodeDistinct(r1: real, r2: real)
    requires 0.0 <= r1 < 1.0 && 0.0 <= r2 < 1.0
    ensures ActivationCode(r1) == ActivationCode(r2) <==> ActivationNumber(r1) == ActivationNumber(r2)
  {
    Decimal.DecimalStringInjective(ActivationNumber(r1), ActivationNumber(r2));
  }

  /** Two draws that show the generator is not a 4-digit code: "0" and a seven-digit code. */
  lemma ActivationCodeNotFourDigits()
    ensures ActivationCode(0.0) == "0"
    ensures ActivationCode(0.5) == "4500000"
  {
    assert ActivationNumber(0.5) == 4500000;
    assert Decimal.DecimalString(4) == "4";
    assert Decimal.DecimalString(45) == "45";
    assert Decimal.DecimalString(450) == "450";
    assert Decimal.DecimalString(4500) == "4500";
    assert Decimal.DecimalString(45000) == "45000";
    assert Decimal.DecimalString(450000) == "450000";
  }

  // ---------------------------------------------------------------- register

  /** The candidate account: the dto's fields with the password replaced by its bcrypt hash. */
  function CandidateUser(dto: RegisterDto, salt: string): (u: UserData)
    ensures u.name == dto.name && u.email == dto.email && u.phone_number == dto.phone_number
    ensures u.password.rounds == Bcrypt.SaltRounds
    ensures forall attempt :: Bcrypt.Compare(attempt, u.password) <==> attempt == dto.password
  {
    UserData(dto.name, dto.email, dto.phone_number, Bcrypt.HashPassword(dto.password, Bcrypt.SaltRounds, salt))
  }

  /** `createActivationToken(user)` at time `now` with the draw `random`. */
  function CreateActivationToken(cfg: Config, user: UserData, random: real, now: int): (t: ActivationTicket)
    requires 0.0 <= random < 1.0
    ensures t.activationCode == ActivationCode(random)
    ensures forall at :: now <= at < now + ActivationTtl ==>
              Jwt.Verify(t.token, cfg.activationSecret, at) == Ok(ActivationClaims(user, t.activationCode))
    ensures forall at :: at >= now + ActivationTtl ==>
              Jwt.Verify(t.token, cfg.activationSecret, at) == Err(Jwt.Expired)
  {
    var code := ActivationCode(random);
    ActivationTicket(Jwt.Sign(ActivationClaims(user, code), cfg.activationSecret, now, ActivationTtl), code)
  }

  /**
   * The activation email `register` sends: addressed to the registrant, with a code that
   * reads back as the drawn number and is the code the ticket of the same draw carries.
   */
  function ActivationMail(dto: RegisterDto, random: real): (m: Mail)
    requires 0.0 <= random < 1.0
    ensures m.email == dto.email && m.name == dto.name
    ensures m.subject == ActivationSubject && m.template == ActivationTemplate
    ensures forall i :: 0 <= i < |m.activationCode| ==> Decimal.IsDigit(m.activationCode[i])
    ensures Decimal.ParseDecimal(m.activationCode) == ActivationNumber(random)
    ensures forall cfg, user, now :: m.activationCode == CreateActivationToken(cfg, user, random, now).activationCode
  {
    Mail(dto.email, ActivationSubject, ActivationTemplate, dto.name, ActivationCode(random))
  }

  /** What `register` returns (its `activationToken`) or throws, given the store. */
  function RegisterOutcome(cfg: Config, users: map<string, User>, dto: RegisterDto, salt: string,
                           random: real, now: int): (r: Result<Token, Exception>)
    requires 0.0 <= random < 1.0
    ensures r.Err? <==> dto.email in users
    ensures r.Err? ==> r.error == BadRequest(EmailExists)
    ensures r.Ok? ==> Jwt.Verify(r.value, cfg.activationSecret, now)
                      == Ok(ActivationClaims(CandidateUser(dto, salt), ActivationMail(dto, random).activationCode))
    ensures r.Ok? ==> r.value.Signed? && r.value.exp == now + ActivationTtl
  {
    if dto.email in users then Err(BadRequest(EmailExists))
    else Ok(CreateActivationToken(cfg, CandidateUser(dto, salt), random, now).token)
  }

  /**
   * The ticket of a successful `register` carries the dto's name, email and phone number,
   * a bcrypt hash (cost 10) that accepts exactly the dto's password, and the mailed code.
   */
  lemma RegisterTicketContents(cfg: Config, users: map<string, User>, dto: RegisterDto, salt: string,
                               random: real, now: int, attempt: string)
    requires 0.0 <= random < 1.0
    requires dto.email !in users
    ensures RegisterOutcome(cfg, users, dto, salt, random, now).Ok?
    ensures var claims := RegisterOutcome(cfg, users, dto, salt, random, now).value.payload;
            && claims.ActivationClaims?
            && claims.user.name == dto.name && claims.user.email == dto.email
            && claims.user.phone_number == dto.phone_number
            && claims.user.password.rounds == Bcrypt.SaltRounds
            && (Bcrypt.Compare(attempt, claims.user.password) <==> attempt == dto.password)
            && claims.activationCode == ActivationMail(dto, random).activationCode
  {
    Bcrypt.CompareHashed(dto.password, attempt, Bcrypt.SaltRounds, salt);
  }

  // ---------------------------------------------------------------- activation

  /**
   * The ticket verifies and carries the submitted code (string equality): it was signed
   * with the activation secret, has not expired, and its claims hold exactly that code.
   */
  predicate CodeAccepted(cfg: Config, dto: ActivationDto, now: int)
    ensures CodeAccepted(cfg, dto, now) <==>
              && dto.activationToken.Signed?
              && dto.activationToken.secret == cfg.activationSecret
              && now < dto.activationToken.exp
              && dto.activationToken.payload.ActivationClaims?
              && dto.activationToken.payload.activationCode == dto.activationCode
  {
    var v := Jwt.Verify(dto.activationToken, cfg.activationSecret, now);
    v.Ok? && v.value.ActivationClaims? && v.value.activationCode == dto.activationCode
  }

  /** What `activation` returns (its `user`) or throws, given the store before the call. */
  function ActivationOutcome(cfg: Config, users: map<string, User>, dto: ActivationDto, now: int,
                             fill: StoreFill): (r: Result<User, Exception>)
    requires WellFormed(users)
    ensures Jwt.Verify(dto.activationToken, cfg.activationSecret, now).Err? ==>
              r == Err(TokenInvalid(Jwt.Verify(dto.activationToken, cfg.activationSecret, now).error))
    ensures Jwt.Verify(dto.activationToken, cfg.activationSecret, now).Ok? && !CodeAccepted(cfg, dto, now) ==>
              r == Err(BadRequest(InvalidActivationCode))
    ensures r.Ok? <==> CodeAccepted(cfg, dto, now)
                       && dto.activationToken.payload.user.email !in users
                       && !IdTaken(users, fill.id)
    ensures r.Ok? ==> r.value.email !in users && r.value.id == fill.id
    ensures r.Ok? ==> dto.activationToken.payload.user
                      == UserData(r.value.name, r.value.email, r.value.phone_number, r.value.password)
  {
    match Jwt.Verify(dto.activationToken, cfg.activationSecret, now)
    case Err(e) => Err(TokenInvalid(e))
    case Ok(claims) =>
      if !claims.ActivationClaims? || claims.activationCode != dto.activationCode then
        Err(BadRequest(InvalidActivationCode))
      else if claims.user.email in users then
        Err(BadRequest(UserAlreadyExists))
      else
        Created(users, claims.user, fill, now)
  }

  /**
   * The ticket and the code are judged before the store is consulted: a bad ticket or a
   * wrong code gives the same exception whatever the store holds.
   */
  lemma ActivationChecksTicketFirst(cfg: Config, users1: map<string, User>, users2: map<string, User>,
                                    dto: ActivationDto, now: int, fill1: StoreFill, fill2: StoreFill)
    requires WellFormed(users1) && WellFormed(users2)
    requires !CodeAccepted(cfg, dto, now)
    ensures ActivationOutcome(cfg, users1, dto, now, fill1) == ActivationOutcome(cfg, users2, dto, now, fill2)
    ensures ActivationOutcome(cfg, users1, dto, now, fill1).Err?
  {
  }

  /** A code check that passes but an email taken since registration: the second duplicate check. */
  lemma ActivationRechecksEmail(cfg: Config, users: map<string, User>, dto: ActivationDto, now: int, fill: StoreFill)
    requires WellFormed(users)
    requires CodeAccepted(cfg, dto, now)
    requires dto.activationToken.payload.user.email in users
    ensures ActivationOutcome(cfg, users, dto, now, fill) == Err(BadRequest(UserAlreadyExists))
  {
  }

  /**
   * A ticket is single-use in effect: once it has created its user, presenting it again
   * fails, with the duplicate-email error while it still verifies.
   */
  lemma ActivationSingleUse(cfg: Config, users: map<string, User>, dto: ActivationDto, now: int,
                            fill: StoreFill, later: int, fill': StoreFill)
    requires WellFormed(users)
    requires ActivationOutcome(cfg, users, dto, now, fill).Ok?
    ensures var u := ActivationOutcome(cfg, users, dto, now, fill).value;
            WellFormed(users[u.email := u])
            && ActivationOutcome(cfg, users[u.email := u], dto, later, fill').Err?
            && (CodeAccepted(cfg, dto, later) ==>
                  ActivationOutcome(cfg, users[u.email := u], dto, later, fill') == Err(BadRequest(UserAlreadyExists)))
  {
    var u := ActivationOutcome(cfg, users, dto, now, fill).value;
    CreatedKeepsWellFormed(users, dto.activationToken.payload.user, fill, now);
  }

  /**
   * Register then activate: within ten minutes, the ticket together with the mailed code
   * creates the registrant's account, whose hash accepts the registered password, as long
   * as nobody took the email in between.
   */
  lemma RegisterThenActivate(cfg: Config, users: map<string, User>, dto: RegisterDto, salt: string,
                             random: real, now: int, users': map<string, User>, later: int, fill: StoreFill)
    requires 0.0 <= random < 1.0
    requires RegisterOutcome(cfg, users, dto, salt, random, now).Ok?
    requires now <= later < now + ActivationTtl
    requires WellFormed(users') && dto.email !in users' && !IdTaken(users', fill.id)
    ensures var ticket := ActivationDto(RegisterOutcome(cfg, users, dto, salt, random, now).value,
                                        ActivationMail(dto, random).activationCode);
            var r := ActivationOutcome(cfg, users', ticket, later, fill);
            && r.Ok?
            && r.value.email == dto.email && r.value.name == dto.name
            && r.value.phone_number == dto.phone_number
            && Bcrypt.Compare(dto.password, r.value.password)
  {
  }

  /** Any other code than the mailed one is refused while the ticket lives; afterwards it has expired. */
  lemma RegisterThenWrongCodeOrLate(cfg: Config, users: map<string, User>, dto: RegisterDto, salt: string,
                                    random: real, now: int, users': map<string, User>, later: int,
                                    code: string, fill: StoreFill)
    requires 0.0 <= random < 1.0
    requires RegisterOutcome(cfg, users, dto, salt, random, now).Ok?
    requires WellFormed(users')
    ensures var ticket := RegisterOutcome(cfg, users, dto, salt, random, now).value;
            var r := ActivationOutcome(cfg, users', ActivationDto(ticket, code), later, fill);
            && (now <= later < now + ActivationTtl && code != ActivationMail(dto, random).activationCode ==>
                  r == Err(BadRequest(InvalidActivationCode)))
            && (later >= now + ActivationTtl ==> r == Err(TokenInvalid(Jwt.Expired)))
  {
  }

  // ---------------------------------------------------------------- login

  /**
   * `TokenSender.sendToken(user)`: the user with a freshly signed access and refresh
   * token, each carrying `{id}`: each verifies to the user's id under its own secret for
   * its configured lifetime and is expired after it.
   */
  function SendToken(cfg: Config, user: User, now: int): (r: LoginResponse)
    ensures r.user == Some(user) && r.error == None
    ensures r.accessToken.Some? && r.refreshToken.Some?
    ensures forall at :: now <= at < now + cfg.loginAccessTtl ==>
              Jwt.Verify(r.accessToken.value, cfg.accessSecret, at) == Ok(SubjectClaims(user.id))
    ensures forall at :: at >= now + cfg.loginAccessTtl ==>
              Jwt.Verify(r.accessToken.value, cfg.accessSecret, at) == Err(Jwt.Expired)
    ensures forall at :: now <= at < now + cfg.loginRefreshTtl ==>
              Jwt.Verify(r.refreshToken.value, cfg.refreshSecret, at) == Ok(SubjectClaims(user.id))
    ensures forall at :: at >= now + cfg.loginRefreshTtl ==>
              Jwt.Verify(r.refreshToken.value, cfg.refreshSecret, at) == Err(Jwt.Expired)
  {
    LoginResponse(
      Some(user),
      Some(Jwt.Sign(SubjectClaims(user.id), cfg.accessSecret, now, cfg.loginAccessTtl)),
      Some(Jwt.Sign(SubjectClaims(user.id), cfg.refreshSecret, now, cfg.loginRefreshTtl)),
      None)
  }

  /** The one answer for an unknown email and for a wrong password alike. */
  const LoginFailure := LoginResponse(None, None, None, Some(InvalidCredentials))

  /** What `login` returns, given the store. */
  function LoginOutcome(cfg: Config, users: map<string, User>, email: string, password: string, now: int): (r: LoginResponse)
    requires KeyedByEmail(users)
    ensures r.error.None? <==> email in users && Bcrypt.Compare(password, users[email].password)
    ensures r.error.Some? ==> r == LoginFailure
    ensures r.error.None? ==> r.user == Some(users[email]) && r.accessToken.Some? && r.refreshToken.Some?
    ensures r.error.None? ==> forall t :: now <= t < now + cfg.loginAccessTtl ==>
              Jwt.Verify(r.accessToken.value, cfg.accessSecret, t) == Ok(SubjectClaims(users[email].id))
    ensures r.error.None? ==> forall t :: now <= t < now + cfg.loginRefreshTtl ==>
              Jwt.Verify(r.refreshToken.value, cfg.refreshSecret, t) == Ok(SubjectClaims(users[email].id))
  {
    var found := FindByEmail(users, email);
    if found.Some? && Bcrypt.Compare(password, found.value.password) then SendToken(cfg, found.value, now)
    else LoginFailure
  }

  /** An unknown email and a wrong password cannot be told apart by the response. */
  lemma LoginFailuresIdentical(cfg: Config, users: map<string, User>, unknown: string, p1: string,
                               known: string, p2: string, now1: int, now2: int)
    requires KeyedByEmail(users)
    requires unknown !in users
    requires known in users && !Bcrypt.Compare(p2, users[known].password)
    ensures LoginOutcome(cfg, users, unknown, p1, now1) == LoginOutcome(cfg, users, known, p2, now2)
  {
  }

  // ---------------------------------------------------------------- the service

  class UsersService {
    const cfg: Config
    const prisma: Store
    /** Every message handed to the email service, in order. */
    ghost var outbox: seq<Mail>

    constructor (cfg: Config, prisma: Store)
      ensures this.cfg == cfg && this.prisma == prisma && outbox == []
    {
      this.cfg := cfg;
      this.prisma := prisma;
      outbox := [];
    }

    /** Duplicate check, hash, sign the ticket, mail the code; returns the ticket. */
    method Register(dto: RegisterDto, salt: string, random: real, now: int) returns (r: Result<Token, Exception>)
      requires prisma.Valid()
      requires 0.0 <= random < 1.0
      modifies this
      ensures prisma.users == old(prisma.users)
      ensures r == RegisterOutcome(cfg, prisma.users, dto, salt, random, now)
      ensures outbox == if r.Ok? then old(outbox) + [ActivationMail(dto, random)] else old(outbox)
    {
      var existing := prisma.FindUniqueByEmail(dto.email);
      if existing.Some? {
        r := Err(BadRequest(EmailExists));
        return;
      }
      var hashed := Bcrypt.HashPassword(dto.password, Bcrypt.SaltRounds, salt);
      var user := UserData(dto.name, dto.email, dto.phone_number, hashed);
      var ticket := CreateActivationToken(cfg, user, random, now);
      outbox := outbox + [Mail(dto.email, ActivationSubject, ActivationTemplate, dto.name, ticket.activationCode)];
      r := Ok(ticket.token);
    }

    /** Verify the ticket, compare the code, re-check the email, create the user. */
    method Activation(dto: ActivationDto, now: int, fill: StoreFill) returns (r: Result<User, Exception>)
      requires prisma.Valid()
      modifies prisma
      ensures prisma.Valid()
      ensures r == ActivationOutcome(cfg, old(prisma.users), dto, now, fill)
      ensures prisma.users == if r.Ok? then old(prisma.users)[r.value.email := r.value] else old(prisma.users)
    {
      var verified := Jwt.Verify(dto.activationToken, cfg.activationSecret, now);
      if verified.Err? {
        r := Err(TokenInvalid(verified.error));
        return;
      }
      var claims := verified.value;
      if !claims.ActivationClaims? || claims.activationCode != dto.activationCode {
        r := Err(BadRequest(InvalidActivationCode));
        return;
      }
      var existing := prisma.FindUniqueByEmail(claims.user.email);
      if existing.Some? {
        r := Err(BadRequest(UserAlreadyExists));
        return;
      }
      r := prisma.Create(claims.user, fill, now);
    }

    /** `bcrypt.compare` behind `login`. */
    method ComparedPassword(password: string, hashed: Bcrypt.Hash) returns (ok: bool)
      ensures ok <==> Bcrypt.Compare(password, hashed)
    {
      ok := Bcrypt.Compare(password, hashed);
    }

    method Login(email: string, password: string, now: int) returns (r: LoginResponse)
      requires prisma.Valid()
      ensures r == LoginOutcome(cfg, prisma.users, email, password, now)
    {
      var user := prisma.FindUniqueByEmail(email);
      var matches := false;
      if user.Some? {
        matches := ComparedPassword(password, user.value.password);
      }
      if matches {
        r := SendToken(cfg, user.value, now);
      } else {
        r := LoginFailure;
      }
    }

    /** Reads the three request fields, changing nothing. */
    method GetLoggedIn(req: Request) returns (s: Session)
      ensures s == req.Fields()
    {
      s := Session(req.user, req.accesstoken, req.refreshtoken);
    }

    /** Clears the three request fields; the tokens themselves stay valid until they expire. */
    method Logout(req: Request) returns (message: string)
      modifies req
      ensures req.Fields() == Session(None, None, None)
      ensures message == LoggedOut
    {
      req.user := None;
      req.accesstoken := None;
      req.refreshtoken := None;
      message := LoggedOut;
    }

    method GetUsers() returns (r: set<User>)
      requires prisma.Valid()
      ensures forall u :: u in r <==> exists e :: e in prisma.users && prisma.users[e] == u
      ensures |r| == |prisma.users|
    {
      r := prisma.FindMany();
    }
  }
}
