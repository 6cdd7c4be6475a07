/**
 * AuthGuard: admits a request when both token headers are present and the access token
 * verifies, and then rotates the pair from the refresh token, writing the new tokens and
 * the user onto the request. Any failure while rotating is swallowed: the request is
 * still admitted and its fields keep their previous values.
 */
module Guard {
  import opened Wrappers
  import opened Entities
  import opened Prisma
  import opened Http
  import Jwt
  import Service

  /** `expiresIn: '1m'`, the lifetime of both rotated tokens, in seconds. */
  const RotationTtl: int := 60

  const LoginRequired := "Please login to access this content"

  /** `canActivate`'s answer: true, or the exception it throws. */
  datatype Verdict = Allow | Reject(error: Exception)

  /**
   * The admission decision of `canActivate`. It reads the refresh header only for its
   * presence; `jwtService.verify` either throws or returns a payload object, which is
   * always truthy, so the "Invalid access token" throw is never reached.
   */
  function Admission(cfg: Config, h: Headers, now: int): (v: Verdict)
    ensures !Truthy(h.accesstoken) || !Truthy(h.refreshtoken) ==> v == Reject(Unauthorized(LoginRequired))
    ensures v.Allow? <==> Truthy(h.accesstoken) && Truthy(h.refreshtoken)
                          && Jwt.Verify(h.accesstoken.value, cfg.accessSecret, now).Ok?
    ensures Truthy(h.accesstoken) && Truthy(h.refreshtoken) && v.Reject? ==>
              v.error == TokenInvalid(Jwt.Verify(h.accesstoken.value, cfg.accessSecret, now).error)
  {
    if !Truthy(h.accesstoken) || !Truthy(h.refreshtoken) then
      Reject(Unauthorized(LoginRequired))
    else
      match Jwt.Verify(h.accesstoken.value, cfg.accessSecret, now)
      case Err(e) => Reject(TokenInvalid(e))
      case Ok(_) => Allow
  }

  /** The user `findUnique({where: {id: decoded.id}})` yields for a verified refresh token. */
  function RefreshSubject(cfg: Config, users: map<string, User>, refresh: Option<Token>, now: int): (r: Option<User>)
    requires WellFormed(users)
    ensures r.Some? <==> refresh.Some?
                         && Jwt.Verify(refresh.value, cfg.refreshSecret, now).Ok?
                         && refresh.value.payload.SubjectClaims?
                         && IdTaken(users, refresh.value.payload.id)
    ensures r.Some? ==> r.value.id == refresh.value.payload.id
                        && r.value.email in users && users[r.value.email] == r.value
  {
    if refresh.None? then None
    else match Jwt.Verify(refresh.value, cfg.refreshSecret, now)
      case Err(_) => None
      case Ok(claims) => if claims.SubjectClaims? then FindById(users, claims.id) else None
  }

  /**
   * What `updateAccessToken` writes onto the request: the subject's record and a new pair,
   * both signed over `{id}` for one minute; `None` when anything in the try block throws.
   */
  function Rotation(cfg: Config, users: map<string, User>, refresh: Option<Token>, now: int): (r: Option<Session>)
    requires WellFormed(users)
    ensures r.Some? <==> RefreshSubject(cfg, users, refresh, now).Some?
    ensures r.Some? ==> r.value.user == RefreshSubject(cfg, users, refresh, now)
                        && r.value.accessToken.Some? && r.value.refreshToken.Some?
  {
    match RefreshSubject(cfg, users, refresh, now)
    case None => None
    case Some(user) =>
      Some(Session(
        Some(user),
        Some(Jwt.Sign(SubjectClaims(user.id), cfg.accessSecret, now, RotationTtl)),
        Some(Jwt.Sign(SubjectClaims(user.id), cfg.refreshSecret, now, RotationTtl))))
  }

  /**
   * The rotated pair names the user's id, verifies under its own secret for exactly one
   * minute, and (with distinct secrets) never under the other one.
   */
  lemma RotatedTokensLifetime(cfg: Config, users: map<string, User>, refresh: Option<Token>, now: int, t: int)
    requires WellFormed(users)
    requires Rotation(cfg, users, refresh, now).Some?
    ensures var s := Rotation(cfg, users, refresh, now).value;
            var claims := SubjectClaims(s.user.value.id);
            && (now <= t < now + RotationTtl ==>
                  Jwt.Verify(s.accessToken.value, cfg.accessSecret, t) == Ok(claims)
                  && Jwt.Verify(s.refreshToken.value, cfg.refreshSecret, t) == Ok(claims))
            && (t >= now + RotationTtl ==>
                  Jwt.Verify(s.accessToken.value, cfg.accessSecret, t) == Err(Jwt.Expired)
                  && Jwt.Verify(s.refreshToken.value, cfg.refreshSecret, t) == Err(Jwt.Expired))
            && (cfg.accessSecret != cfg.refreshSecret ==>
                  Jwt.Verify(s.accessToken.value, cfg.refreshSecret, t) == Err(Jwt.InvalidSignature)
                  && Jwt.Verify(s.refreshToken.value, cfg.accessSecret, t) == Err(Jwt.InvalidSignature))
  {
  }

  /**
   * Only the access token decides admission: once both headers are present, any two
   * refresh tokens give the same verdict, valid or not.
   */
  lemma AdmissionIgnoresRefreshValidity(cfg: Config, h1: Headers, h2: Headers, now: int)
    requires h1.accesstoken == h2.accesstoken
    requires Truthy(h1.refreshtoken) && Truthy(h2.refreshtoken)
    ensures Admission(cfg, h1, now) == Admission(cfg, h2, now)
  {
  }

  /**
   * A session carries on: the rotated pair, sent back within its minute while the user
   * still exists, is admitted and rotates again to the same user.
   */
  lemma RotationChains(cfg: Config, users: map<string, User>, refresh: Option<Token>, now: int, t: int)
    requires WellFormed(users)
    requires Rotation(cfg, users, refresh, now).Some?
    requires now <= t < now + RotationTtl
    ensures var s := Rotation(cfg, users, refresh, now).value;
            && Admission(cfg, Headers(s.accessToken, s.refreshToken), t) == Allow
            && Rotation(cfg, users, s.refreshToken, t).Some?
            && Rotation(cfg, users, s.refreshToken, t).value.user == s.user
  {
    var s := Rotation(cfg, users, refresh, now).value;
    var u := s.user.value;
    assert FindById(users, u.id) == Some(u);
  }

  /**
   * Rotation is not always a change: signing is deterministic in whole seconds, so
   * rotating a rotated pair again within the same second yields that very pair.
   */
  lemma RotationSameSecond(cfg: Config, users: map<string, User>, refresh: Option<Token>, now: int)
    requires WellFormed(users)
    requires Rotation(cfg, users, refresh, now).Some?
    ensures var s := Rotation(cfg, users, refresh, now).value;
            Rotation(cfg, users, s.refreshToken, now) == Some(s)
  {
    var s := Rotation(cfg, users, refresh, now).value;
    assert FindById(users, s.user.value.id) == Some(s.user.value);
  }

  /** The pair `login` hands out is admitted for as long as its access token lives. */
  lemma LoginSessionAdmitted(cfg: Config, users: map<string, User>, email: string, password: string,
                             now: int, t: int)
    requires KeyedByEmail(users)
    requires Service.LoginOutcome(cfg, users, email, password, now).error.None?
    requires now <= t < now + cfg.loginAccessTtl
    ensures var r := Service.LoginOutcome(cfg, users, email, password, now);
            Admission(cfg, Headers(r.accessToken, r.refreshToken), t) == Allow
  {
  }

  class AuthGuard {
    const cfg: Config
    const prisma: Store

    constructor (cfg: Config, prisma: Store)
      ensures this.cfg == cfg && this.prisma == prisma
    {
      this.cfg := cfg;
      this.prisma := prisma;
    }

    /**
     * Throws (leaving `req` alone) unless both headers are present and the access token
     * verifies; then rotates and admits, whether or not the rotation succeeded.
     */
    method CanActivate(req: Request, now: int) returns (v: Verdict)
      requires prisma.Valid()
      modifies req
      ensures v == Admission(cfg, req.headers, now)
      ensures v.Reject? ==> req.Fields() == old(req.Fields())
      ensures v.Allow? ==>
                req.Fields() == match Rotation(cfg, prisma.users, req.headers.refreshtoken, now)
                                case Some(s) => s
                                case None => old(req.Fields())
    {
      var accessToken := req.headers.accesstoken;
      var refreshToken := req.headers.refreshtoken;
      if !Truthy(accessToken) || !Truthy(refreshToken) {
        v := Reject(Unauthorized(LoginRequired));
        return;
      }
      var decoded := Jwt.Verify(accessToken.value, cfg.accessSecret, now);
      if decoded.Err? {
        v := Reject(TokenInvalid(decoded.error));
        return;
      }
      UpdateAccessToken(req, now);
      v := Allow;
    }

    /** All three fields change together, or none does. */
    method UpdateAccessToken(req: Request, now: int)
      requires prisma.Valid()
      modifies req
      ensures req.Fields() == match Rotation(cfg, prisma.users, req.headers.refreshtoken, now)
                              case Some(s) => s
                              case None => old(req.Fields())
    {
      var refreshTokenData := req.headers.refreshtoken;
      if refreshTokenData.None? {
        return;  // verify(undefined) throws; caught
      }
      var decoded := Jwt.Verify(refreshTokenData.value, cfg.refreshSecret, now);
      if decoded.Err? {
        return;  // caught and logged
      }
      if !decoded.value.SubjectClaims? {
        return;  // findUnique without an id throws; caught
      }
      var user := prisma.FindUniqueById(decoded.value.id);
      if user.None? {
        return;  // `user.id` on null throws; caught
      }
      var accessToken := Jwt.Sign(SubjectClaims(user.value.id), cfg.accessSecret, now, RotationTtl);
      var refreshToken := Jwt.Sign(SubjectClaims(user.value.id), cfg.refreshSecret, now, RotationTtl);
      req.accesstoken := Some(accessToken);
      req.refreshtoken := Some(refreshToken);
      req.user := user;
    }
  }
}
