/**
 * The request object the GraphQL context hands to the guard and the service: two
 * incoming headers, and three fields the guard and `logout` assign in place.
 */
module Http {
  import opened Wrappers
  import opened Entities
  import Jwt

  /** The `accesstoken` and `refreshtoken` headers; `None` when the header is absent. */
  datatype Headers = Headers(accesstoken: Option<Token>, refreshtoken: Option<Token>)

  /**
   * JavaScript truthiness of a header: present and not the empty string. Every token
   * `sign` produced is truthy; of arbitrary text, only the empty string is falsy.
   */
  predicate Truthy(h: Option<Token>)
    ensures Truthy(h) <==> h.Some? && (h.value.Signed? || |h.value.text| > 0)
  {
    h.Some? && h.value != Jwt.Garbled("")
  }

  /** The three request fields `{user, accesstoken, refreshtoken}`; `None` is null or undefined. */
  datatype Session = Session(user: Option<User>, accessToken: Option<Token>, refreshToken: Option<Token>)

  class Request {
    const headers: Headers
    var user: Option<User>
    var accesstoken: Option<Token>
    var refreshtoken: Option<Token>

    /** A fresh request: the three fields are not yet set. */
    constructor (headers: Headers)
      ensures this.headers == headers
      ensures user == None && accesstoken == None && refreshtoken == None
    {
      this.headers := headers;
      user, accesstoken, refreshtoken := None, None, None;
    }

    /** The three assignable fields, read together. */
    function Fields(): Session
      reads this
    {
      Session(user, accesstoken, refreshtoken)
    }
  }
}
