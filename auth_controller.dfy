/**
 * The authentication handlers over the user collection: register, log in, log
 * out, request a password-reset token, reset the password with it, and change
 * the password. Password hashing (done by the user model when it saves) and the
 * sha256 digest of reset tokens are functions the store is given.
 */
module AuthController {
  import opened Wrappers
  import opened Errors
  import opened Store
  import opened AsyncHandler
  import opened JwtUtils

  /** A stored user; `password` holds the hash the user model stores. */
  datatype User = User(
    id: nat,
    name: string,
    email: string,
    password: string,
    role: string,
    resetPasswordToken: Option<string>,
    resetPasswordExpire: Option<int>)

  /** The reply of a successful registration. */
  datatype Registration = Registration(message: string, token: string, data: UserObject)

  /** The reply of logout. */
  datatype LogoutReply = LogoutReply(statusCode: int, cookieName: string, cookieValue: string,
                                     cookie: CookieOptions, success: bool, message: string)

  const DefaultRole := "user"

  /** The user document as a plain object (`toObject()`), password included. */
  function ToObject(u: User): (r: UserObject)
    ensures r.Keys >= {"_id", "name", "email", "password", "role"}
    ensures r["_id"] == Num(u.id) && r["name"] == Str(u.name) && r["email"] == Str(u.email)
    ensures r["password"] == Str(u.password) && r["role"] == Str(u.role)
    ensures ("resetPasswordToken" in r <==> u.resetPasswordToken.Some?) && ("resetPasswordExpire" in r <==> u.resetPasswordExpire.Some?)
    ensures r.Keys <= {"_id", "name", "email", "password", "role", "resetPasswordToken", "resetPasswordExpire"}
  {
    map["_id" := Num(u.id), "name" := Str(u.name), "email" := Str(u.email),
        "password" := Str(u.password), "role" := Str(u.role)]
    + (if u.resetPasswordToken.Some? then map["resetPasswordToken" := Str(u.resetPasswordToken.value)] else map[])
    + (if u.resetPasswordExpire.Some? then map["resetPasswordExpire" := Num(u.resetPasswordExpire.value)] else map[])
  }

  /** The fields register replies with: id, name, email and role, never the password. */
  function PublicFields(u: User): (r: UserObject)
    ensures r.Keys == {"_id", "name", "email", "role"}
    ensures forall k :: k in r ==> k in ToObject(u) && r[k] == ToObject(u)[k]
  {
    map["_id" := Num(u.id), "name" := Str(u.name), "email" := Str(u.email), "role" := Str(u.role)]
  }

  function EmailIs(email: string): User -> bool {
    (u: User) => u.email == email
  }

  function IdIs(id: nat): User -> bool {
    (u: User) => u.id == id
  }

  /** The reset lookup: the stored token equals the presented token's digest, and the expiry is after now. */
  function ResetTokenValid(hashed: string, now: int): User -> bool {
    (u: User) => u.resetPasswordToken == Some(hashed) && u.resetPasswordExpire.Some? && u.resetPasswordExpire.value > now
  }

  /** Emails identify users. */
  ghost predicate EmailsUnique(users: seq<User>) {
    forall i, j :: 0 <= i < j < |users| ==> users[i].email != users[j].email
  }

  /** login's checks: both fields required; then one and the same 401 for an unknown
      email and for a wrong password. The result is the index of the user logged in. */
  function Authenticate(users: seq<User>, hash: string -> string, email: string, password: string): (r: Outcome<nat>)
    ensures email == "" || password == "" ==> r == Err(RequiredFields)
    ensures r.Ok? ==> r.value < |users| && users[r.value].email == email && users[r.value].password == hash(password)
    ensures email != "" && password != "" && (forall i :: 0 <= i < |users| ==> users[i].email != email) ==>
              r == Err(InvalidCredentials)
    ensures EmailsUnique(users) && email != "" && password != "" ==>
              (r.Ok? <==> exists i :: 0 <= i < |users| && users[i].email == email && users[i].password == hash(password))
    ensures r == Err(RequiredFields) <==> email == "" || password == ""
    ensures email != "" && password != "" && !r.Ok? ==> r == Err(InvalidCredentials)
    ensures email != "" && password != "" ==>
              (r.Ok? <==> FirstMatch(users, EmailIs(email)).Some? && users[FirstMatch(users, EmailIs(email)).value].password == hash(password))
  {
    if email == "" || password == "" then Err(RequiredFields)
    else
      match FirstMatch(users, EmailIs(email))
      case None => Err(InvalidCredentials)
      case Some(i) => if users[i].password != hash(password) then Err(InvalidCredentials) else Ok(200, i)
  }

  /** A user just registered can log in with the password given at registration. */
  lemma RegisterThenAuthenticate(users: seq<User>, hash: string -> string, u: User, password: string)
    requires forall i :: 0 <= i < |users| ==> users[i].email != u.email
    requires u.email != "" && password != "" && u.password == hash(password)
    ensures Authenticate(users + [u], hash, u.email, password) == Ok(200, |users|)
  {
    var all := users + [u];
    assert EmailIs(u.email)(all[|users|]);
    var m := FirstMatch(all, EmailIs(u.email));
    assert m.Some?;
  }

  /** After a password change, the new password logs the user in, and the old one no longer
      does unless both hash alike. */
  lemma ChangedPasswordAuthenticates(users: seq<User>, hash: string -> string, i: nat, oldPassword: string, newPassword: string)
    requires EmailsUnique(users) && i < |users|
    requires users[i].email != "" && newPassword != "" && oldPassword != ""
    requires hash(oldPassword) != hash(newPassword)
    ensures var changed := users[i := users[i].(password := hash(newPassword))];
            && Authenticate(changed, hash, users[i].email, newPassword) == Ok(200, i)
            && Authenticate(changed, hash, users[i].email, oldPassword) == Err(InvalidCredentials)
  {
    var changed := users[i := users[i].(password := hash(newPassword))];
    var email := users[i].email;
    var m := FirstMatch(changed, EmailIs(email));
    assert EmailIs(email)(changed[i]);
    assert m.Some?;
  }

  /** The user after a successful reset: the new password, and no token or expiry. */
  function ClearedReset(u: User, newPasswordHash: string): (r: User)
    ensures r.password == newPasswordHash && r.resetPasswordToken.None? && r.resetPasswordExpire.None?
    ensures r.(password := u.password, resetPasswordToken := u.resetPasswordToken,
               resetPasswordExpire := u.resetPasswordExpire) == u
  {
    u.(password := newPasswordHash, resetPasswordToken := None, resetPasswordExpire := None)
  }

  /** A reset token works once: when no other user holds the same digest, after the reset no
      user matches it at any later time. */
  lemma ResetTokenSingleUse(users: seq<User>, hashed: string, now: int, later: int, newPasswordHash: string)
    requires FirstMatch(users, ResetTokenValid(hashed, now)).Some?
    requires var i := FirstMatch(users, ResetTokenValid(hashed, now)).value;
             forall j :: 0 <= j < |users| && j != i ==> users[j].resetPasswordToken != Some(hashed)
    ensures var i := FirstMatch(users, ResetTokenValid(hashed, now)).value;
            FirstMatch(users[i := ClearedReset(users[i], newPasswordHash)], ResetTokenValid(hashed, later)).None?
  {
    var i := FirstMatch(users, ResetTokenValid(hashed, now)).value;
    var after := users[i := ClearedReset(users[i], newPasswordHash)];
    forall j | 0 <= j < |after| ensures !ResetTokenValid(hashed, later)(after[j]) {
      if j != i {
        assert after[j] == users[j];
      }
    }
  }

  /** A token is refused from the moment its expiry is reached. */
  lemma ResetTokenExpires(u: User, hashed: string, now: int)
    requires u.resetPasswordExpire.Some? && now >= u.resetPasswordExpire.value
    ensures !ResetTokenValid(hashed, now)(u)
  {
  }

  /** logout: overwrite the cookie with "none", expiring ten seconds from now. */
  function Logout(now: int): (r: LogoutReply)
    ensures r.statusCode == 200 && r.success
    ensures r.cookieName == "token" && r.cookieValue == "none"
    ensures r.cookie.expires == now + 10 * 1000 && r.cookie.httpOnly && !r.cookie.secure
  {
    LogoutReply(200, "token", "none", CookieOptions(now + 10 * 1000, true, false), true, "User logged out successfully")
  }

  /** The logout cookie replaces the session cookie and expires before it would have,
      whenever sessions last at least one day. */
  lemma LogoutEndsSession(env: Env, now: int)
    requires CookieDays(env) >= 1
    ensures Logout(now).cookieName == "token"
    ensures Logout(now).cookie.expires < now + CookieDays(env) * MillisPerDay
  {
  }

  class UserStore {
    var users: seq<User>
    var nextId: nat
    /** The password hash the user model stores and compares against. */
    const hash: string -> string
    /** The sha256 hex digest of a reset token. */
    const digest: string -> string
    const sign: Signer
    const env: Env
    /** How long a reset token lasts, in milliseconds, as the user model sets it. */
    const resetLifetime: int

    /** Ids are fresh and distinct, and emails are unique. */
    ghost predicate Valid()
      reads this
    {
      && (forall i :: 0 <= i < |users| ==> users[i].id < nextId)
      && (forall i, j :: 0 <= i < j < |users| ==> users[i].id != users[j].id)
      && EmailsUnique(users)
    }

    constructor (hash: string -> string, digest: string -> string, sign: Signer, env: Env, resetLifetime: int)
      ensures Valid() && users == []
      ensures this.hash == hash && this.digest == digest && this.sign == sign
      ensures this.env == env && this.resetLifetime == resetLifetime
    {
      this.hash := hash;
      this.digest := digest;
      this.sign := sign;
      this.env := env;
      this.resetLifetime := resetLifetime;
      users := [];
      nextId := 0;
    }

    /** register: all three fields required, the email not yet taken; the role defaults to "user". */
    method Register(name: string, email: string, password: string, role: string) returns (r: Outcome<Registration>)
      requires Valid()
      modifies this
      ensures Valid()
      ensures name == "" || email == "" || password == "" ==>
                r == Err(RequiredFields) && users == old(users)
      ensures name != "" && email != "" && password != "" && FirstMatch(old(users), EmailIs(email)).Some? ==>
                r == Err(EmailExists) && users == old(users)
      ensures name != "" && email != "" && password != "" && FirstMatch(old(users), EmailIs(email)).None? ==>
                var u := User(old(nextId), name, email, hash(password), if role != "" then role else DefaultRole, None, None);
                && users == old(users) + [u]
                && r == Ok(201, Registration("Registration successful", GenerateToken(sign, env, ToObject(u)), PublicFields(u)))
      ensures r.Ok? ==> "password" !in r.value.data
    {
      if name == "" || email == "" || password == "" {
        return Err(RequiredFields);
      }
      if FirstMatch(users, EmailIs(email)).Some? {
        return Err(EmailExists);
      }
      var u := User(nextId, name, email, hash(password), if role != "" then role else DefaultRole, None, None);
      users := users + [u];
      nextId := nextId + 1;
      var token := GenerateToken(sign, env, ToObject(u));
      r := Ok(201, Registration("Registration successful", token, PublicFields(u)));
    }

    /** login: authenticate, then issue a token for the user found. */
    method Login(email: string, password: string, now: int) returns (r: Outcome<TokenResponse>)
      requires Valid()
      ensures var a := Authenticate(users, hash, email, password);
              && (a.Err? ==> r == Err(a.response))
              && (a.Ok? ==> r.Ok? && r.statusCode == 200 &&
                            IsTokenResponse(r.value, sign, env, now, ToObject(users[a.value]), 200, "Login successful"))
      ensures r.Ok? ==> "password" !in r.value.data
      ensures r.Err? ==> (r.response == RequiredFields <==> email == "" || password == "")
      ensures r.Err? && email != "" && password != "" ==> r.response == InvalidCredentials
    {
      var a := Authenticate(users, hash, email, password);
      if a.Err? {
        return Err(a.response);
      }
      var t := SendTokenResponse(sign, env, now, ToObject(users[a.value]), 200, "Login successful");
      r := Ok(200, t);
    }

    /** forgotPassword: store the digest of a new reset token and its expiry, and return the raw token. */
    method ForgotPassword(email: string, rawToken: string, now: int) returns (r: Outcome<string>)
      requires Valid()
      modifies this`users
      ensures Valid()
      ensures FirstMatch(old(users), EmailIs(email)).None? ==> r == Err(UserNotFound) && users == old(users)
      ensures FirstMatch(old(users), EmailIs(email)).Some? ==>
                var i := FirstMatch(old(users), EmailIs(email)).value;
                && r == Ok(200, rawToken)
                && users == old(users)[i := old(users)[i].(resetPasswordToken := Some(digest(rawToken)),
                                                          resetPasswordExpire := Some(now + resetLifetime))]
    {
      var found := FirstMatch(users, EmailIs(email));
      if found.None? {
        return Err(UserNotFound);
      }
      var i := found.value;
      users := users[i := users[i].(resetPasswordToken := Some(digest(rawToken)),
                                    resetPasswordExpire := Some(now + resetLifetime))];
      r := Ok(200, rawToken);
    }

    /** resetPassword: find the user whose stored token is the presented token's digest and has
        not expired; set the new password, clear the token and its expiry, and issue a token. */
    method ResetPassword(rawToken: string, newPassword: string, now: int) returns (r: Outcome<TokenResponse>)
      requires Valid()
      modifies this`users
      ensures Valid()
      ensures FirstMatch(old(users), ResetTokenValid(digest(rawToken), now)).None? ==>
                r == Err(InvalidToken) && users == old(users)
      ensures FirstMatch(old(users), ResetTokenValid(digest(rawToken), now)).Some? ==>
                var i := FirstMatch(old(users), ResetTokenValid(digest(rawToken), now)).value;
                && users == old(users)[i := ClearedReset(old(users)[i], hash(newPassword))]
                && r.Ok? && r.statusCode == 200
                && IsTokenResponse(r.value, sign, env, now, ToObject(users[i]), 200, "Password reset successful")
    {
      var found := FirstMatch(users, ResetTokenValid(digest(rawToken), now));
      if found.None? {
        return Err(InvalidToken);
      }
      var i := found.value;
      users := users[i := ClearedReset(users[i], hash(newPassword))];
      var t := SendTokenResponse(sign, env, now, ToObject(users[i]), 200, "Password reset successful");
      r := Ok(200, t);
    }

    /** updatePassword: the current password must match; then store the new one and issue a token.
        A caller whose user no longer exists makes the handler throw a TypeError, which is handed on. */
    method UpdatePassword(userId: nat, currentPassword: string, newPassword: string, now: int)
      returns (r: Outcome<TokenResponse>)
      requires Valid()
      modifies this`users
      ensures Valid()
      ensures FirstMatch(old(users), IdIs(userId)).None? ==>
                r.Unhandled? && r.error.name == "TypeError" && users == old(users)
      ensures FirstMatch(old(users), IdIs(userId)).Some? ==>
                var i := FirstMatch(old(users), IdIs(userId)).value;
                if old(users)[i].password != hash(currentPassword) then
                  r == Err(InvalidCredentials) && users == old(users)
                else
                  && users == old(users)[i := old(users)[i].(password := hash(newPassword))]
                  && r.Ok? && r.statusCode == 200
                  && IsTokenResponse(r.value, sign, env, now, ToObject(users[i]), 200, "Password updated successfully")
    {
      var found := FirstMatch(users, IdIs(userId));
      if found.None? {
        return Wrap(Threw(TypeErrorOf("Cannot read properties of null (reading 'comparePassword')")));
      }
      var i := found.value;
      if users[i].password != hash(currentPassword) {
        return Err(InvalidCredentials);
      }
      users := users[i := users[i].(password := hash(newPassword))];
      var t := SendTokenResponse(sign, env, now, ToObject(users[i]), 200, "Password updated successfully");
      r := Ok(200, t);
    }
  }
}
