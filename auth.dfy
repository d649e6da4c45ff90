/** The authentication endpoints: password checking, the login decision and the
    session cookie it sets, and logout. bcrypt's `checkpw` is a parameter that
    returns None when it raises. */
module Auth {
  import opened Base
  import opened Models
  import opened Security

  const LoginError := HttpError(Unauthorized, "Incorrect username or password")

  /** The cookie lifetime `login` sets, in seconds. */
  const CookieMaxAge := 30 * 60

  /** `verify_password`: whatever `checkpw` raises reads as a mismatch. */
  function VerifyPassword(plain: string, hashed: string, checkpw: (string, string) -> Option<bool>): (r: bool)
    ensures r <==> checkpw(plain, hashed) == Some(true)
    ensures checkpw(plain, hashed).None? ==> !r
  {
    match checkpw(plain, hashed)
    case None => false
    case Some(ok) => ok
  }

  /** Who logs in: 401 for an unknown name or a wrong password, then 400 for an inactive user. */
  function LoginDecision(users: seq<User>, username: string, password: string,
                         checkpw: (string, string) -> Option<bool>): (r: Result<User>)
    ensures UserNamed(users, username).None? ==> r == Err(LoginError)
    ensures UserNamed(users, username).Some? ==>
              var u := users[UserNamed(users, username).value];
              r == if !VerifyPassword(password, u.passwordHash, checkpw) then Err(LoginError)
                   else if !u.isActive then Err(InactiveError)
                   else Ok(u)
  {
    match UserNamed(users, username)
    case None => Err(LoginError)
    case Some(i) =>
      if !VerifyPassword(password, users[i].passwordHash, checkpw) then Err(LoginError)
      else if !users[i].isActive then Err(InactiveError)
      else Ok(users[i])
  }

  /** An unknown user and a wrong password are indistinguishable; "Inactive user" is only
      ever told to someone whose password verified; success is an active user of that name. */
  lemma LoginOutcomes(users: seq<User>, username: string, password: string,
                      checkpw: (string, string) -> Option<bool>)
    ensures LoginDecision(users, username, password, checkpw) == Err(InactiveError) ==>
              var i := UserNamed(users, username);
              i.Some? && VerifyPassword(password, users[i.value].passwordHash, checkpw)
              && !users[i.value].isActive
    ensures LoginDecision(users, username, password, checkpw).Err? ==>
              LoginDecision(users, username, password, checkpw).error in {LoginError, InactiveError}
    ensures LoginDecision(users, username, password, checkpw).Ok? ==>
              var u := LoginDecision(users, username, password, checkpw).value;
              u in users && u.username == username && u.isActive
  {
  }

  /** One `Set-Cookie` header. */
  datatype SetCookie = SetCookie(
    key: string, value: string, maxAge: int, path: string,
    httpOnly: bool, secure: bool, sameSite: string)

  /** The response object the endpoint writes its cookies to. */
  class Response {
    var cookies: seq<SetCookie>

    constructor()
      ensures cookies == []
    {
      cookies := [];
    }

    /** `response.set_cookie(...)`. */
    method SetCookieHeader(c: SetCookie)
      modifies this
      ensures cookies == old(cookies) + [c]
    {
      cookies := cookies + [c];
    }

    /** `response.delete_cookie(key, path)`: an empty cookie that expires at once. */
    method DeleteCookie(key: string, path: string)
      modifies this
      ensures cookies == old(cookies) + [Expired(key, path)]
    {
      cookies := cookies + [Expired(key, path)];
    }
  }

  function Expired(key: string, path: string): (c: SetCookie)
    ensures c.key == key && c.path == path && c.value == "" && c.maxAge == 0
  {
    SetCookie(key, "", 0, path, false, false, "lax")
  }

  function SessionCookie(token: string): SetCookie {
    SetCookie("token", token, CookieMaxAge, "/", true, false, "lax")
  }

  datatype LoginBody = LoginBody(accessToken: string, tokenType: string, user: User)

  /** `login`: decide, sign a token for the username with the default lifetime, set it
      as an HTTP-only cookie and return it. */
  method Login(response: Response, users: seq<User>, username: string, password: string,
               checkpw: (string, string) -> Option<bool>, encode: map<string, Claim> -> string, now: int)
    returns (r: Result<LoginBody>)
    modifies response
    ensures LoginDecision(users, username, password, checkpw).Err? ==>
              r == Err(LoginDecision(users, username, password, checkpw).error)
              && response.cookies == old(response.cookies)
    ensures LoginDecision(users, username, password, checkpw).Ok? ==>
              var u := LoginDecision(users, username, password, checkpw).value;
              var token := CreateAccessToken(map["sub" := StrClaim(u.username)], None, now, encode);
              r == Ok(LoginBody(token, "bearer", u))
              && response.cookies == old(response.cookies) + [SessionCookie(token)]
  {
    var decision := LoginDecision(users, username, password, checkpw);
    if decision.Err? {
      return Err(decision.error);
    }
    var user := decision.value;
    var token := CreateAccessToken(map["sub" := StrClaim(user.username)], None, now, encode);
    response.SetCookieHeader(SessionCookie(token));
    r := Ok(LoginBody(token, "bearer", user));
  }

  /** `logout`: no authentication needed; the cookie is always cleared at path "/". */
  method Logout(response: Response) returns (message: string)
    modifies response
    ensures response.cookies == old(response.cookies) + [Expired("token", "/")]
    ensures message == "Successfully logged out"
  {
    response.DeleteCookie("token", "/");
    message := "Successfully logged out";
  }

  /** The cookie lives exactly as long as a token signed with the default lifetime. */
  lemma CookieMatchesToken(data: map<string, Claim>, now: int)
    ensures TokenPayload(data, None, now)["exp"] == TimeClaim(now + CookieMaxAge)
    ensures SessionCookie("t").maxAge == Lifetime(None)
  {
  }

  /** A token issued at login, presented as the cookie while the decoder still accepts it
      (it returns the signed claims), authenticates the same user. */
  lemma LoginThenAuthenticated(users: seq<User>, username: string, password: string,
                               checkpw: (string, string) -> Option<bool>,
                               encode: map<string, Claim> -> string,
                               decode: (string, int) -> Option<map<string, Claim>>,
                               issued: int, later: int)
    requires LoginDecision(users, username, password, checkpw).Ok?
    requires var u := LoginDecision(users, username, password, checkpw).value;
             var claims := map["sub" := StrClaim(u.username)];
             var token := CreateAccessToken(claims, None, issued, encode);
             token != "" && decode(token, later) == Some(TokenPayload(claims, None, issued))
    ensures var u := LoginDecision(users, username, password, checkpw).value;
            var token := CreateAccessToken(map["sub" := StrClaim(u.username)], None, issued, encode);
            GetCurrentUser(Request(Some(token), None), users, decode, later) == Ok(u)
  {
    var u := LoginDecision(users, username, password, checkpw).value;
    var claims := map["sub" := StrClaim(u.username)];
    var token := CreateAccessToken(claims, None, issued, encode);
    var payload := TokenPayload(claims, None, issued);
    assert "sub" in payload && payload["sub"] == StrClaim(username);
    assert VerifyToken(token, decode, later) == Ok(username);
    var k := UserNamed(users, username);
    assert k.Some? && users[k.value] == u;
  }
}
