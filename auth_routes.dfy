/** api/routes/auth.py: registration, login, token refresh and logout over the
    user table. Password hashing and verification are function parameters,
    new ids are arguments, and tokens are their claim sets (signing is
    foreign). Times are whole seconds. */
module AuthRoutes {

  import opened Common
  import AuthMiddleware

  type Claims = map<string, Value>

  /** A `users` row as these routes read and write it. */
  datatype Account = Account(
    id: string, email: string, username: string, passwordHash: string,
    fullName: Option<string>, tenantId: string, roleId: Option<string>,
    isActive: bool, isVerified: bool, lastLoginAt: Option<int>)

  datatype TenantRow = TenantRow(id: string, slug: string)

  datatype RoleRow = RoleRow(id: string, name: string)

  /** The `user` object of a token response. */
  datatype UserView = UserView(id: string, email: string, username: string, fullName: Option<string>)

  datatype TokenResponse = TokenResponse(access: Claims, refresh: Claims, tokenType: string, user: UserView)

  /** The index of the first element satisfying `p`, the row `.first()` returns. */
  function FirstIndex<T>(xs: seq<T>, p: T -> bool): (r: Option<nat>)
    ensures r.Some? ==> (r.value < |xs| && p(xs[r.value]) && forall j :: 0 <= j < r.value ==> !p(xs[j]))
    ensures r.None? ==> forall j :: 0 <= j < |xs| ==> !p(xs[j])
  {
    if xs == [] then None
    else if p(xs[0]) then Some(0)
    else match FirstIndex(xs[1..], p)
      case None => None
      case Some(i) => Some(i + 1)
  }

  /** The pair of tokens every successful route returns: the access token
      carries `sub` and `email`, the refresh token only `sub`. */
  function IssueTokens(a: Account, now: int, settings: AuthMiddleware.SecuritySettings): (t: TokenResponse)
    ensures t.tokenType == "bearer"
    ensures t.access.Keys == {"sub", "email", "exp", "type"} && t.refresh.Keys == {"sub", "exp", "type"}
    ensures t.access["sub"] == Str(a.id) && t.access["email"] == Str(a.email) && t.access["type"] == Str("access")
    ensures t.refresh["sub"] == Str(a.id) && t.refresh["type"] == Str("refresh") && "email" !in t.refresh
    ensures t.user == UserView(a.id, a.email, a.username, a.fullName)
  {
    TokenResponse(
      AuthMiddleware.AccessClaims(map["sub" := Str(a.id), "email" := Str(a.email)], None, now, settings),
      AuthMiddleware.RefreshClaims(map["sub" := Str(a.id)], now, settings),
      "bearer",
      UserView(a.id, a.email, a.username, a.fullName))
  }

  /** The account `login` would accept, or its refusal: an unknown email and a
      wrong password give the same 401, and an inactive account is refused
      only once the password is right. */
  function LoginDecision(users: seq<Account>, email: string, password: string, verify: (string, string) -> bool)
    : (r: HttpResult<nat>)
    ensures r.Ok? ==> r.value < |users| && users[r.value].email == email
    ensures r.HttpError? ==> r == HttpError(401, "Incorrect email or password") || r == HttpError(403, "User account is inactive")
  {
    match FirstIndex(users, (u: Account) => u.email == email)
    case None => HttpError(401, "Incorrect email or password")
    case Some(i) =>
      if !verify(password, users[i].passwordHash) then HttpError(401, "Incorrect email or password")
      else if !users[i].isActive then HttpError(403, "User account is inactive")
      else Ok(i)
  }

  /** A caller cannot tell an unknown email from a wrong password, and learns
      that an account is inactive only with its right password. */
  lemma LoginRefusals(users: seq<Account>, email: string, password: string, verify: (string, string) -> bool)
    ensures (forall j :: 0 <= j < |users| ==> users[j].email != email) ==>
      LoginDecision(users, email, password, verify) == HttpError(401, "Incorrect email or password")
    ensures LoginDecision(users, email, password, verify) == HttpError(403, "User account is inactive") ==>
      exists i :: 0 <= i < |users| && users[i].email == email && verify(password, users[i].passwordHash) && !users[i].isActive
    ensures LoginDecision(users, email, password, verify).Ok? ==>
      var i := LoginDecision(users, email, password, verify).value;
      verify(password, users[i].passwordHash) && users[i].isActive
  {
    var found := FirstIndex(users, (u: Account) => u.email == email);
    if found.Some? {
      assert users[found.value].email == email;
    }
  }

  /** `refresh_token`: every failure inside it, including a token of the wrong
      type, an expired one and an unknown subject, is the same 401. */
  function Refresh(d: AuthMiddleware.Decoded, users: seq<Account>, now: int, settings: AuthMiddleware.SecuritySettings)
    : (r: HttpResult<TokenResponse>)
    ensures r.HttpError? ==> r == HttpError(401, "Invalid refresh token")
    ensures r.Ok? ==> (d.Claimed? && "type" in d.claims && d.claims["type"] == Str("refresh")
      && "sub" in d.claims
      && exists i :: (0 <= i < |users| && Str(users[i].id) == d.claims["sub"]
                      && r.value == IssueTokens(users[i], now, settings)))
  {
    if !d.Claimed? || "type" !in d.claims || d.claims["type"] != Str("refresh") then
      HttpError(401, "Invalid refresh token")
    else
      var sub := if "sub" in d.claims then d.claims["sub"] else Null;
      match FirstIndex(users, (u: Account) => Str(u.id) == sub)
      case None => HttpError(401, "Invalid refresh token")
      case Some(i) => Ok(IssueTokens(users[i], now, settings))
  }

  /** An access token, even a valid one for an existing user, is refused by
      the refresh route: its `type` claim is `access`. */
  lemma AccessTokenCannotRefresh(a: Account, users: seq<Account>, now: int, later: int,
                                 settings: AuthMiddleware.SecuritySettings)
    ensures Refresh(AuthMiddleware.Claimed(IssueTokens(a, now, settings).access), users, later, settings)
      == HttpError(401, "Invalid refresh token")
  {
  }

  /** A refresh token of an existing user is exchanged for a new pair for that
      same user. */
  lemma RefreshTokenRefreshes(users: seq<Account>, k: nat, now: int, later: int,
                              settings: AuthMiddleware.SecuritySettings)
    requires k < |users| && forall j :: 0 <= j < |users| && j != k ==> users[j].id != users[k].id
    ensures Refresh(AuthMiddleware.Claimed(IssueTokens(users[k], now, settings).refresh), users, later, settings)
      == Ok(IssueTokens(users[k], later, settings))
  {
    var c := IssueTokens(users[k], now, settings).refresh;
    var found := FirstIndex(users, (u: Account) => Str(u.id) == c["sub"]);
    assert found.Some?;
    assert found.value == k;
  }

  /** The tables the routes use: `users` is written, tenants and roles are read. */
  class AccountStore {
    var users: seq<Account>
    const tenants: seq<TenantRow>
    const roles: seq<RoleRow>

    constructor (users: seq<Account>, tenants: seq<TenantRow>, roles: seq<RoleRow>)
      ensures this.users == users && this.tenants == tenants && this.roles == roles
    {
      this.users := users;
      this.tenants := tenants;
      this.roles := roles;
    }

    /** `register`: 400 when the email OR the username is taken, 500 without a
        `default` tenant, otherwise one new active, unverified account in that
        tenant, with the `user` role when such a role exists. */
    method Register(email: string, username: string, password: string, fullName: Option<string>,
                    newId: string, now: int, settings: AuthMiddleware.SecuritySettings, hash: string -> string)
      returns (r: HttpResult<TokenResponse>)
      modifies this`users
      ensures (exists j :: 0 <= j < |old(users)| && (old(users)[j].email == email || old(users)[j].username == username)) ==>
        r == HttpError(400, "Email or username already registered") && users == old(users)
      ensures ((forall j :: 0 <= j < |old(users)| ==> old(users)[j].email != email && old(users)[j].username != username)
        && (forall j :: 0 <= j < |tenants| ==> tenants[j].slug != "default")) ==>
        r == HttpError(500, "Default tenant not found") && users == old(users)
      ensures ((forall j :: 0 <= j < |old(users)| ==> old(users)[j].email != email && old(users)[j].username != username)
        && (exists j :: 0 <= j < |tenants| && tenants[j].slug == "default")) ==> r.Ok?
      ensures r.Ok? ==> (
        var t := FirstIndex(tenants, (t: TenantRow) => t.slug == "default");
        var role := FirstIndex(roles, (x: RoleRow) => x.name == "user");
        t.Some?
        && var a := Account(newId, email, username, hash(password), fullName, tenants[t.value].id,
                            if role.Some? then Some(roles[role.value].id) else None, true, false, None);
        users == old(users) + [a] && r.value == IssueTokens(a, now, settings))
    {
      var existing := FirstIndex(users, (u: Account) => u.email == email || u.username == username);
      if existing.Some? {
        return HttpError(400, "Email or username already registered");
      }
      var tenant := FirstIndex(tenants, (t: TenantRow) => t.slug == "default");
      if tenant.None? {
        return HttpError(500, "Default tenant not found");
      }
      var role := FirstIndex(roles, (x: RoleRow) => x.name == "user");
      var a := Account(newId, email, username, hash(password), fullName, tenants[tenant.value].id,
                       if role.Some? then Some(roles[role.value].id) else None, true, false, None);
      users := users + [a];
      r := Ok(IssueTokens(a, now, settings));
    }

    /** `login`: the refusals of `LoginDecision` change nothing; success stamps
        `last_login_at` on that account only and returns its tokens. */
    method Login(email: string, password: string, now: int, settings: AuthMiddleware.SecuritySettings,
                 verify: (string, string) -> bool)
      returns (r: HttpResult<TokenResponse>)
      modifies this`users
      ensures LoginDecision(old(users), email, password, verify).HttpError? ==>
        r == HttpError(LoginDecision(old(users), email, password, verify).status,
                       LoginDecision(old(users), email, password, verify).detail)
        && users == old(users)
      ensures LoginDecision(old(users), email, password, verify).Ok? ==>
        var i := LoginDecision(old(users), email, password, verify).value;
        users == old(users)[i := old(users)[i].(lastLoginAt := Some(now))]
        && r == Ok(IssueTokens(old(users)[i], now, settings))
    {
      match LoginDecision(users, email, password, verify) {
        case HttpError(st, detail) =>
          r := HttpError(st, detail);
        case Ok(i) =>
          r := Ok(IssueTokens(users[i], now, settings));
          users := users[i := users[i].(lastLoginAt := Some(now))];
      }
    }

    /** `logout`: only a message; no table is written and no token revoked. */
    method Logout(current: Account) returns (message: string)
      ensures message == "Successfully logged out"
    {
      message := "Successfully logged out";
    }
  }
}
