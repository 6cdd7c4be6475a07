/**
 * The records the account lifecycle passes around: the persisted User (the fields of
 * entities/user.entity.ts), the pending registration a ticket carries, the claims
 * tokens carry, the service configuration and the exceptions the core throws.
 */
module Entities {
  import opened Wrappers
  import Bcrypt
  import Jwt

  /** The candidate account inside an activation ticket: the password is already hashed. */
  datatype UserData = UserData(name: string, email: string, phone_number: string, password: Bcrypt.Hash)

  datatype Avatar = Avatar(id: string, public_id: string, url: string, userId: string)

  /** A row of the user table. */
  datatype User = User(
    id: string,
    name: string,
    email: string,
    phone_number: string,
    address: string,
    password: Bcrypt.Hash,
    role: string,
    avatar: Option<Avatar>,
    createdAt: int,
    updatedAt: int)

  /**
   * What a token carries: an activation ticket's `{user, activationCode}`, or the
   * `{id}` of a session token.
   */
  datatype Claims =
    | ActivationClaims(user: UserData, activationCode: string)
    | SubjectClaims(id: string)

  type Token = Jwt.Token<Claims>

  /**
   * Values read from the configuration service. The two lifetimes are those the
   * login token minter (utils/sendToken) uses; that file is not part of this model.
   */
  datatype Config = Config(
    activationSecret: string,  // ACTIVATION_SECRET
    accessSecret: string,      // ACCESS_TOKEN_SECRET
    refreshSecret: string,     // REFRESH_TOKEN_SECRET
    loginAccessTtl: int,
    loginRefreshTtl: int)

  /** What the core throws. */
  datatype Exception =
    | BadRequest(message: string)      // BadRequestException
    | Unauthorized(message: string)    // UnauthorizedException
    | TokenInvalid(reason: Jwt.Error)  // an error thrown by jwtService.verify, propagated as is
    | UniqueConstraint                 // the store refused a row whose email or id is taken
}
