/**
 * UsersResolver: the GraphQL entry points. `register` rejects a request with an empty
 * name, email or password before the service sees it and returns only the ticket;
 * `activation` and `login` forward; `getLoggedInUser` and `LogoutUser` run behind the
 * guard; `getUsers` is open to anyone.
 */
module Resolver {
  import opened Wrappers
  import opened Entities
  import opened Prisma
  import opened Http
  import Jwt
  import Service
  import Guard

  const FillRequired := "Please fill all the required fields"

  datatype RegisterResponse = RegisterResponse(activation_token: Token)

  /**
   * The resolver's own check, `!name || !email || !password` negated: each of the three
   * strings is non-empty. The phone number is not among the fields it looks at.
   */
  predicate RequiredFieldsPresent(dto: Service.RegisterDto)
    ensures RequiredFieldsPresent(dto) <==> |dto.name| > 0 && |dto.email| > 0 && |dto.password| > 0
  {
    dto.name != "" && dto.email != "" && dto.password != ""
  }

  /** What the `register` mutation returns or throws. */
  function ResolveRegister(cfg: Config, users: map<string, User>, dto: Service.RegisterDto, salt: string,
                           random: real, now: int): (r: Result<RegisterResponse, Exception>)
    requires 0.0 <= random < 1.0
    ensures !RequiredFieldsPresent(dto) ==> r == Err(BadRequest(FillRequired))
    ensures RequiredFieldsPresent(dto) ==>
              var s := Service.RegisterOutcome(cfg, users, dto, salt, random, now);
              && (r.Ok? <==> s.Ok?)
              && (r.Ok? ==> r.value.activation_token == s.value)
              && (r.Err? ==> r.error == s.error)
  {
    if !RequiredFieldsPresent(dto) then Err(BadRequest(FillRequired))
    else match Service.RegisterOutcome(cfg, users, dto, salt, random, now)
      case Ok(token) => Ok(RegisterResponse(token))
      case Err(e) => Err(e)
  }

  /** A complete registration is turned away by the duplicate check and only by it. */
  lemma ResolveRegisterRejectsDuplicate(cfg: Config, users: map<string, User>, dto: Service.RegisterDto,
                                        salt: string, random: real, now: int)
    requires 0.0 <= random < 1.0
    requires RequiredFieldsPresent(dto)
    ensures ResolveRegister(cfg, users, dto, salt, random, now).Err? <==> dto.email in users
    ensures dto.email in users ==>
              ResolveRegister(cfg, users, dto, salt, random, now) == Err(BadRequest(Service.EmailExists))
  {
  }

  /**
   * `getLoggedInUser` composed with the guard: the guard's exception, or the request's
   * three fields after the guard, which are the rotated ones or, when rotation failed,
   * those the request had before.
   */
  function GuardedSession(cfg: Config, users: map<string, User>, h: Headers, prior: Session, now: int): (r: Result<Session, Exception>)
    requires WellFormed(users)
    ensures Guard.Admission(cfg, h, now).Reject? ==> r == Err(Guard.Admission(cfg, h, now).error)
    ensures Guard.Admission(cfg, h, now).Allow? ==>
              r.Ok? && r.value == match Guard.Rotation(cfg, users, h.refreshtoken, now)
                                  case Some(s) => s
                                  case None => prior
  {
    match Guard.Admission(cfg, h, now)
    case Reject(e) => Err(e)
    case Allow =>
      match Guard.Rotation(cfg, users, h.refreshtoken, now)
      case Some(s) => Ok(s)
      case None => Ok(prior)
  }

  /**
   * With a valid access token, a valid refresh token and its user on file, the logged-in
   * query returns that user with a new pair that lives one minute.
   */
  lemma GuardedSessionRotates(cfg: Config, users: map<string, User>, h: Headers, prior: Session, now: int)
    requires WellFormed(users)
    requires Guard.Admission(cfg, h, now) == Guard.Allow
    requires Guard.RefreshSubject(cfg, users, h.refreshtoken, now).Some?
    ensures var r := GuardedSession(cfg, users, h, prior, now);
            var u := Guard.RefreshSubject(cfg, users, h.refreshtoken, now).value;
            && r.Ok? && r.value.user == Some(u)
            && r.value.accessToken == Some(Jwt.Sign(SubjectClaims(u.id), cfg.accessSecret, now, Guard.RotationTtl))
            && r.value.refreshToken == Some(Jwt.Sign(SubjectClaims(u.id), cfg.refreshSecret, now, Guard.RotationTtl))
  {
  }

  /**
   * Rotation errors are swallowed: a valid access token with an invalid refresh token, or
   * one naming no user, still passes, and the query returns the request's earlier fields.
   */
  lemma GuardedSessionSwallowsRotationFailure(cfg: Config, users: map<string, User>, h: Headers,
                                              prior: Session, now: int)
    requires WellFormed(users)
    requires Truthy(h.accesstoken) && Truthy(h.refreshtoken)
    requires Jwt.Verify(h.accesstoken.value, cfg.accessSecret, now).Ok?
    requires Guard.RefreshSubject(cfg, users, h.refreshtoken, now).None?
    ensures GuardedSession(cfg, users, h, prior, now) == Ok(prior)
  {
  }

  class UsersResolver {
    const service: Service.UsersService
    const guard: Guard.AuthGuard

    /** One store and one configuration, shared by the service and the guard. */
    ghost predicate Valid()
      reads service.prisma
    {
      service.prisma == guard.prisma && service.cfg == guard.cfg && service.prisma.Valid()
    }

    constructor (service: Service.UsersService, guard: Guard.AuthGuard)
      requires service.prisma == guard.prisma && service.cfg == guard.cfg && service.prisma.Valid()
      ensures this.service == service && this.guard == guard
      ensures Valid()
    {
      this.service := service;
      this.guard := guard;
    }

    method Register(dto: Service.RegisterDto, salt: string, random: real, now: int)
      returns (r: Result<RegisterResponse, Exception>)
      requires Valid()
      requires 0.0 <= random < 1.0
      modifies service
      ensures Valid()
      ensures service.prisma.users == old(service.prisma.users)
      ensures r == ResolveRegister(service.cfg, service.prisma.users, dto, salt, random, now)
      ensures service.outbox == if r.Ok? then old(service.outbox) + [Service.ActivationMail(dto, random)]
                                else old(service.outbox)
    {
      if dto.name == "" || dto.email == "" || dto.password == "" {
        r := Err(BadRequest(FillRequired));
        return;
      }
      var result := service.Register(dto, salt, random, now);
      match result
      case Ok(token) => r := Ok(RegisterResponse(token));
      case Err(e) => r := Err(e);
    }

    method Activation(dto: Service.ActivationDto, now: int, fill: StoreFill) returns (r: Result<User, Exception>)
      requires Valid()
      modifies service.prisma
      ensures Valid()
      ensures r == Service.ActivationOutcome(service.cfg, old(service.prisma.users), dto, now, fill)
      ensures service.prisma.users == if r.Ok? then old(service.prisma.users)[r.value.email := r.value]
                                      else old(service.prisma.users)
    {
      r := service.Activation(dto, now, fill);
    }

    method Login(email: string, password: string, now: int) returns (r: Service.LoginResponse)
      requires Valid()
      ensures r == Service.LoginOutcome(service.cfg, service.prisma.users, email, password, now)
    {
      r := service.Login(email, password, now);
    }

    /** Guarded: the guard runs first; its exception is the query's. */
    method GetLoggedInUser(req: Request, now: int) returns (r: Result<Session, Exception>)
      requires Valid()
      modifies req
      ensures r == GuardedSession(service.cfg, service.prisma.users, req.headers, old(req.Fields()), now)
      ensures req.Fields() == if r.Ok? then r.value else old(req.Fields())
    {
      var verdict := guard.CanActivate(req, now);
      if verdict.Reject? {
        r := Err(verdict.error);
        return;
      }
      var session := service.GetLoggedIn(req);
      r := Ok(session);
    }

    /** Guarded: clears the request fields only when the guard lets the call through. */
    method LogoutUser(req: Request, now: int) returns (r: Result<string, Exception>)
      requires Valid()
      modifies req
      ensures Guard.Admission(service.cfg, req.headers, now).Reject? ==>
                r == Err(Guard.Admission(service.cfg, req.headers, now).error) && req.Fields() == old(req.Fields())
      ensures Guard.Admission(service.cfg, req.headers, now).Allow? ==>
                r == Ok(Service.LoggedOut) && req.Fields() == Session(None, None, None)
    {
      var verdict := guard.CanActivate(req, now);
      if verdict.Reject? {
        r := Err(verdict.error);
        return;
      }
      var message := service.Logout(req);
      r := Ok(message);
    }

    /** Not guarded. */
    method GetUsers() returns (r: set<User>)
      requires Valid()
      ensures forall u :: u in r <==> exists e :: e in service.prisma.users && service.prisma.users[e] == u
      ensures |r| == |service.prisma.users|
    {
      r := service.GetUsers();
    }
  }
}
