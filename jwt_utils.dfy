/**
 * Token issuing: the signed token's payload and lifetime, the session cookie's
 * options, and the reply that carries both, with the password taken out of the
 * returned user.
 */
module JwtUtils {
  import opened Wrappers

  /** A JSON value held in a user object. */
  datatype Value = Str(s: string) | Num(n: int)

  /** A user document as a plain object: field name to value. */
  type UserObject = map<string, Value>

  /** The environment variables read here. An empty string stands for an unset variable
      (both are falsy); `jwtCookieExpire` is None when unset or empty, else its numeric value. */
  datatype Env = Env(jwtSecret: string, jwtExpire: string, jwtCookieExpire: Option<int>, nodeEnv: string)

  /** The token payload: the user's `_id` and `role`, each None when the object lacks it. */
  datatype Payload = Payload(userId: Option<Value>, role: Option<Value>)

  /** `jwt.sign(payload, secret, expiresIn)`: the signing itself is not modelled, only its inputs. */
  type Signer = (Payload, string, string) -> string

  /** The cookie options; `secure` stands for the option being set to true. */
  datatype CookieOptions = CookieOptions(expires: int, httpOnly: bool, secure: bool)

  datatype TokenResponse = TokenResponse(
    statusCode: int,
    cookieName: string,
    cookieValue: string,
    cookie: CookieOptions,
    success: bool,
    message: string,
    token: string,
    data: UserObject)

  const DefaultExpiresIn := "30d"
  const DefaultCookieDays := 30
  const MillisPerDay := 24 * 60 * 60 * 1000

  function Field(user: UserObject, key: string): Option<Value> {
    if key in user then Some(user[key]) else None
  }

  /** `JWT_EXPIRE || '30d'`. */
  function ExpiresIn(env: Env): (r: string)
    ensures r != ""
    ensures env.jwtExpire != "" ==> r == env.jwtExpire
    ensures env.jwtExpire == "" ==> r == DefaultExpiresIn
  {
    if env.jwtExpire != "" then env.jwtExpire else DefaultExpiresIn
  }

  /** The payload `{ userId: user._id, role: user.role }`. */
  function TokenPayload(user: UserObject): (p: Payload)
    ensures "_id" in user ==> p.userId == Some(user["_id"])
    ensures "role" in user ==> p.role == Some(user["role"])
  {
    Payload(Field(user, "_id"), Field(user, "role"))
  }

  /** generateToken: the user's id and role, signed with the secret, valid for `ExpiresIn(env)`. */
  function GenerateToken(sign: Signer, env: Env, user: UserObject): (r: string)
    ensures forall other: UserObject ::
              Field(other, "_id") == Field(user, "_id") && Field(other, "role") == Field(user, "role") ==>
                r == sign(TokenPayload(other), env.jwtSecret, ExpiresIn(env))
    ensures env.jwtExpire == "" ==> r == sign(TokenPayload(user), env.jwtSecret, DefaultExpiresIn)
  {
    sign(TokenPayload(user), env.jwtSecret, ExpiresIn(env))
  }

  /** `JWT_COOKIE_EXPIRE || 30`: a set value, even "0", is used as it is. */
  function CookieDays(env: Env): (r: int)
    ensures env.jwtCookieExpire.None? ==> r == DefaultCookieDays
    ensures env.jwtCookieExpire.Some? ==> r == env.jwtCookieExpire.value
  {
    env.jwtCookieExpire.GetOr(DefaultCookieDays)
  }

  /** Everything sendTokenResponse replies for this user, status and message. */
  ghost predicate IsTokenResponse(r: TokenResponse, sign: Signer, env: Env, now: int,
                                  user: UserObject, statusCode: int, message: string)
  {
    && r.statusCode == statusCode
    && r.success
    && r.token == GenerateToken(sign, env, user)
    && r.cookieName == "token" && r.cookieValue == r.token
    && r.cookie.expires == now + CookieDays(env) * MillisPerDay
    && r.cookie.httpOnly
    && (r.cookie.secure <==> env.nodeEnv == "production")
    && r.data.Keys == user.Keys - {"password"}
    && (forall k :: k in r.data ==> r.data[k] == user[k])
    && r.message == (if message == "" then "Success" else message)
  }

  /** sendTokenResponse: sign a token, set it as an httpOnly cookie (secure in production) and
      reply with the user minus its password. */
  method SendTokenResponse(sign: Signer, env: Env, now: int, user: UserObject, statusCode: int, message: string)
    returns (r: TokenResponse)
    ensures IsTokenResponse(r, sign, env, now, user, statusCode, message)
    ensures "password" !in r.data
    ensures forall k :: k in user && k != "password" ==> k in r.data && r.data[k] == user[k]
  {
    var token := GenerateToken(sign, env, user);
    var options := CookieOptions(now + CookieDays(env) * 24 * 60 * 60 * 1000, true, false);
    if env.nodeEnv == "production" {
      options := options.(secure := true);
    }
    var userData := user;
    userData := userData - {"password"};
    r := TokenResponse(statusCode, "token", token, options, true,
                       if message != "" then message else "Success", token, userData);
  }

  /** Without JWT_COOKIE_EXPIRE the cookie lives thirty days, 2 592 000 000 ms. */
  lemma DefaultCookieLifetime(env: Env, now: int)
    requires env.jwtCookieExpire.None?
    ensures now + CookieDays(env) * MillisPerDay == now + 2592000000
  {
  }
}
