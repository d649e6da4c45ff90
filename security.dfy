/** Authentication and branch scoping: the role names, the branch access rule,
    where a request's token is taken from, what a decoded token must carry, the
    order of `get_current_user`'s checks, and the expiry written into new
    tokens. JWT signing and decoding are parameters (`encode`, `decode`); a
    decoder returning None stands for any JWTError, expiry included. */
module Security {
  import opened Base
  import opened Text
  import opened Models

  const AccessTokenExpireMinutes := 30

  const RoleAdmin := "ADMIN"
  const RoleAgent := "AGENT"
  const RoleViewer := "VIEWER"

  const CredentialsError := HttpError(Unauthorized, "Could not validate credentials")
  const InactiveError := HttpError(BadRequest, "Inactive user")

  /** `check_user_access`: may this user act on rows of this branch? */
  function CheckUserAccess(user: User, branchId: Option<int>): (r: bool)
    ensures user.role == RoleAdmin ==> r
    ensures user.role != RoleAdmin ==> (r <==> branchId.Some? && user.branchId == branchId)
  {
    if user.role == RoleAdmin then true
    else if branchId.None? then false
    else user.branchId == branchId
  }

  /** The access-control filter of the list queries: a non-admin sees its own branch
      only; an admin's `branch_id` argument narrows the list only when it is truthy. */
  predicate InScope(user: User, rowBranch: int, branchId: Option<int>) {
    if user.role != RoleAdmin then user.branchId == Some(rowBranch)
    else !TruthyId(branchId) || rowBranch == branchId.value
  }

  /** A non-admin without a branch reaches no branch at all, and a non-admin reaches
      exactly one: its own. */
  lemma AccessOfNonAdmin(user: User, b: int, c: int)
    requires user.role != RoleAdmin
    ensures user.branchId.None? ==> !CheckUserAccess(user, Some(b))
    ensures CheckUserAccess(user, Some(b)) && CheckUserAccess(user, Some(c)) ==> b == c
    ensures !CheckUserAccess(user, None)
  {
  }

  /** The parts of a request the token is looked for in. */
  datatype Request = Request(tokenCookie: Option<string>, authorization: Option<string>)


  /** `get_token_from_request`. */
  function GetTokenFromRequest(req: Request): (r: Option<string>)
    ensures Truthy(req.tokenCookie) ==> r == req.tokenCookie
    ensures !Truthy(req.tokenCookie) ==>
              (r.Some? <==> req.authorization.Some? && "Bearer " <= req.authorization.value)
    ensures !Truthy(req.tokenCookie) && r.Some? ==>
              r.value == TakeUntil(req.authorization.value[7..], ' ')
  {
    if Truthy(req.tokenCookie) then req.tokenCookie
    else if Truthy(req.authorization) && "Bearer " <= req.authorization.value then
      var h := req.authorization.value;
      assert h == "Bearer" + [' '] + h[7..];
      SplitSecond("Bearer", ' ', h[7..]);
      Some(Split(h, ' ')[1])
    else None
  }

  /** A bearer header carries the text after "Bearer " up to the next space. */
  lemma BearerHeader(t: string, rest: string)
    requires ' ' !in t
    requires rest == [] || rest[0] == ' '
    ensures GetTokenFromRequest(Request(None, Some("Bearer " + t + rest))) == Some(t)
  {
    var h := "Bearer " + t + rest;
    assert h[..7] == "Bearer ";
    assert h[7..] == t + rest;
    NoSpaceTake(t, rest);
  }

  /** A header that does not start with "Bearer " carries nothing. */
  lemma OtherHeader(h: string)
    requires !("Bearer " <= h)
    ensures GetTokenFromRequest(Request(None, Some(h))) == None
  {
  }

  lemma NoSpaceTake(t: string, rest: string)
    requires ' ' !in t
    requires rest == [] || rest[0] == ' '
    ensures TakeUntil(t + rest, ' ') == t
  {
    if t == [] {
    } else {
      assert (t + rest)[1..] == t[1..] + rest;
      NoSpaceTake(t[1..], rest);
    }
  }

  /** A JWT claim value. */
  datatype Claim = StrClaim(s: string) | TimeClaim(t: int)

  /** `verify_token`: the subject of a decodable token; 401 for an undecodable token or
      one without `sub`; a `sub` that is not a string fails pydantic (500). */
  function VerifyToken(token: string, decode: (string, int) -> Option<map<string, Claim>>, now: int): (r: Result<string>)
    ensures decode(token, now).None? ==> r == Err(CredentialsError)
    ensures decode(token, now).Some? && "sub" !in decode(token, now).value ==> r == Err(CredentialsError)
    ensures r.Ok? <==> decode(token, now).Some? && "sub" in decode(token, now).value
                       && decode(token, now).value["sub"].StrClaim?
    ensures r.Ok? ==> r.value == decode(token, now).value["sub"].s
  {
    match decode(token, now)
    case None => Err(CredentialsError)
    case Some(claims) =>
      if "sub" !in claims then Err(CredentialsError)
      else if claims["sub"].StrClaim? then Ok(claims["sub"].s)
      else Err(HttpError(ServerError, "Internal Server Error"))
  }

  function UserNamed(users: seq<User>, name: string): Option<nat> {
    FindFirst(users, (u: User) => u.username == name)
  }

  /** `get_current_user`: token present, token valid, user known, user active, in that order. */
  function GetCurrentUser(req: Request, users: seq<User>, decode: (string, int) -> Option<map<string, Claim>>, now: int): (r: Result<User>)
    ensures !Truthy(GetTokenFromRequest(req)) ==> r == Err(CredentialsError)
    ensures Truthy(GetTokenFromRequest(req)) && VerifyToken(GetTokenFromRequest(req).value, decode, now).Err? ==>
              r == Err(VerifyToken(GetTokenFromRequest(req).value, decode, now).error)
    ensures r.Ok? ==> r.value in users && r.value.isActive
    ensures r.Ok? ==> Truthy(GetTokenFromRequest(req))
                      && VerifyToken(GetTokenFromRequest(req).value, decode, now) == Ok(r.value.username)
  {
    var token := GetTokenFromRequest(req);
    if !Truthy(token) then Err(CredentialsError)
    else match VerifyToken(token.value, decode, now)
      case Err(e) => Err(e)
      case Ok(name) =>
        match UserNamed(users, name)
        case None => Err(CredentialsError)
        case Some(i) => if !users[i].isActive then Err(InactiveError) else Ok(users[i])
  }

  /** With a token that verifies to `name`: an unknown name is 401, and the first user of
      that name decides between 400 (inactive) and success. */
  lemma GetCurrentUserAfterToken(req: Request, users: seq<User>, decode: (string, int) -> Option<map<string, Claim>>, now: int, name: string)
    requires Truthy(GetTokenFromRequest(req))
    requires VerifyToken(GetTokenFromRequest(req).value, decode, now) == Ok(name)
    ensures (forall i :: 0 <= i < |users| ==> users[i].username != name) ==>
              GetCurrentUser(req, users, decode, now) == Err(CredentialsError)
    ensures forall i :: 0 <= i < |users| && users[i].username == name
                        && (forall j :: 0 <= j < i ==> users[j].username != name) ==>
              GetCurrentUser(req, users, decode, now) ==
                (if users[i].isActive then Ok(users[i]) else Err(InactiveError))
  {
  }

  /** `if expires_delta:` — a zero timedelta is falsy and gets the default lifetime. */
  function Lifetime(expiresDelta: Option<int>): (r: int)
    ensures expiresDelta.None? || expiresDelta.value == 0 ==> r == AccessTokenExpireMinutes * 60
    ensures expiresDelta.Some? && expiresDelta.value != 0 ==> r == expiresDelta.value
  {
    if expiresDelta.Some? && expiresDelta.value != 0 then expiresDelta.value
    else AccessTokenExpireMinutes * 60
  }

  /** The claims `create_access_token` signs: a copy of `data` with `exp` set. */
  function TokenPayload(data: map<string, Claim>, expiresDelta: Option<int>, now: int): (r: map<string, Claim>)
    ensures r.Keys == data.Keys + {"exp"}
    ensures r["exp"] == TimeClaim(now + Lifetime(expiresDelta))
    ensures forall k :: k in data && k != "exp" ==> r[k] == data[k]
  {
    data["exp" := TimeClaim(now + Lifetime(expiresDelta))]
  }

  function CreateAccessToken(data: map<string, Claim>, expiresDelta: Option<int>, now: int, encode: map<string, Claim> -> string): string {
    encode(TokenPayload(data, expiresDelta, now))
  }
}
