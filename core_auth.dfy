/** core/auth.py: the JWT claim sets the authentication service signs, the
    check order of the `get_current_user` dependency, password login against
    the user rows, and the admin and role gates. Signing, decoding and bcrypt
    are foreign: a decoded token arrives as a `Decoded` outcome and password
    verification is a function parameter. Times are whole seconds. */
module CoreAuth {

  import opened Common
  import opened UserModel
  import PyText

  type Claims = map<string, Value>

  const SecondsPerDay: int := 86400

  /** The settings the token lifetimes come from. */
  datatype TokenSettings = TokenSettings(accessTokenExpireDays: nat, refreshTokenExpireDays: nat)

  /** `data.copy()` updated with `exp` and `type`. */
  function WithExpiry(data: Claims, exp: int, kind: string): (c: Claims)
    ensures c.Keys == data.Keys + {"exp", "type"}
    ensures c["exp"] == Int(exp) && c["type"] == Str(kind)
    ensures forall k :: k in data && k != "exp" && k != "type" ==> c[k] == data[k]
  {
    data["exp" := Int(exp)]["type" := Str(kind)]
  }

  /** `create_access_token`: a zero `timedelta` is falsy, so only a non-zero
      delta replaces the configured number of days. */
  function AccessClaims(data: Claims, expiresDelta: Option<int>, now: int, settings: TokenSettings): (c: Claims)
    ensures c.Keys == data.Keys + {"exp", "type"}
    ensures c["type"] == Str("access")
    ensures expiresDelta.Some? && expiresDelta.value != 0 ==> c["exp"] == Int(now + expiresDelta.value)
    ensures expiresDelta.None? || expiresDelta.value == 0 ==>
      c["exp"] == Int(now + settings.accessTokenExpireDays * SecondsPerDay)
    ensures forall k :: k in data && k != "exp" && k != "type" ==> c[k] == data[k]
  {
    var exp := if expiresDelta.Some? && expiresDelta.value != 0 then now + expiresDelta.value
               else now + settings.accessTokenExpireDays * SecondsPerDay;
    WithExpiry(data, exp, "access")
  }

  /** `create_refresh_token` */
  function RefreshClaims(data: Claims, now: int, settings: TokenSettings): (c: Claims)
    ensures c.Keys == data.Keys + {"exp", "type"}
    ensures c["type"] == Str("refresh")
    ensures c["exp"] == Int(now + settings.refreshTokenExpireDays * SecondsPerDay)
    ensures forall k :: k in data && k != "exp" && k != "type" ==> c[k] == data[k]
  {
    WithExpiry(data, now + settings.refreshTokenExpireDays * SecondsPerDay, "refresh")
  }

  /** An access and a refresh token made from the same data carry the same
      claims apart from `exp` and `type`, and their `type`s differ, so one can
      never stand in for the other. */
  lemma AccessAndRefreshDiffer(data: Claims, expiresDelta: Option<int>, now: int, settings: TokenSettings)
    ensures AccessClaims(data, expiresDelta, now, settings).Keys == RefreshClaims(data, now, settings).Keys
    ensures AccessClaims(data, expiresDelta, now, settings)["type"] != RefreshClaims(data, now, settings)["type"]
    ensures forall k :: k in data && k != "exp" && k != "type" ==>
      AccessClaims(data, expiresDelta, now, settings)[k] == RefreshClaims(data, now, settings)[k]
  {
  }

  /** What `jwt.decode` gives: the claims, or a `JWTError` with its message. */
  datatype Decoded = Claimed(claims: Claims) | JwtError(message: string)

  /** `AuthService.decode_token`: a JWT error becomes a 401 carrying its message. */
  function DecodeToken(d: Decoded): (r: HttpResult<Claims>)
    ensures d.Claimed? ==> r == Ok(d.claims)
    ensures d.JwtError? ==> r == HttpError(401, "Could not validate credentials: " + d.message)
  {
    match d
    case Claimed(c) => Ok(c)
    case JwtError(m) => HttpError(401, "Could not validate credentials: " + m)
  }

  /** A user row, as far as these checks read it. `role` is the `User.role`
      relationship: the Role object, or `None`. */
  datatype AuthUser = AuthUser(
    id: string, email: string, passwordHash: string, status: UserStatus,
    role: Option<RoleRef>, lastLoginAt: Option<int>)

  /** The `sub` claim as a user id: `payload.get("sub")` is `None` when the
      claim is missing or null. */
  function SubjectOf(c: Claims): Option<Value> {
    if "sub" in c && c["sub"] != Null then Some(c["sub"]) else None
  }

  /** The user the query `User.id == sub` finds; only a string id can match. */
  function LookUp(users: map<string, AuthUser>, sub: Value): Option<AuthUser> {
    if sub.Str? && sub.s in users then Some(users[sub.s]) else None
  }

  /** `get_current_user`: decoding failure → 401, no `sub` → 401, unknown user
      → 401, a status other than `active` → 403, otherwise the user. */
  function GetCurrentUser(d: Decoded, users: map<string, AuthUser>): (r: HttpResult<AuthUser>)
    ensures d.JwtError? ==> r == HttpError(401, "Could not validate credentials: " + d.message)
    ensures d.Claimed? && SubjectOf(d.claims).None? ==> r == HttpError(401, "Invalid authentication credentials")
    ensures d.Claimed? && SubjectOf(d.claims).Some? && LookUp(users, SubjectOf(d.claims).value).None? ==>
      r == HttpError(401, "User not found")
    ensures r.Ok? <==> (d.Claimed? && SubjectOf(d.claims).Some? && LookUp(users, SubjectOf(d.claims).value).Some?
      && LookUp(users, SubjectOf(d.claims).value).value.status == Active)
    ensures r.Ok? ==> r.value in users.Values && StatusValue(r.value.status) == "active"
    ensures r.HttpError? ==> r.status == 401 || r == HttpError(403, "User account is not active")
  {
    match DecodeToken(d)
    case HttpError(st, detail) => HttpError(st, detail)
    case Ok(payload) =>
      match SubjectOf(payload)
      case None => HttpError(401, "Invalid authentication credentials")
      case Some(sub) =>
        match LookUp(users, sub)
        case None => HttpError(401, "User not found")
        case Some(user) =>
          if StatusValue(user.status) != "active" then HttpError(403, "User account is not active")
          else Ok(user)
  }

  /** `get_current_active_user` */
  function GetCurrentActiveUser(current: AuthUser): (r: HttpResult<AuthUser>)
    ensures r.Ok? <==> current.status == Active
  {
    if StatusValue(current.status) != "active" then HttpError(400, "Inactive user") else Ok(current)
  }

  /** The 400 "Inactive user" can never follow `get_current_user`, which has
      already refused every user that is not active. */
  lemma ActiveCheckIsRedundant(d: Decoded, users: map<string, AuthUser>)
    requires GetCurrentUser(d, users).Ok?
    ensures GetCurrentActiveUser(GetCurrentUser(d, users).value) == GetCurrentUser(d, users)
  {
  }

  /** A token is refused for its subject's status only after the subject was
      found: 403 implies a decodable token naming an existing user. */
  lemma ForbiddenMeansKnownUser(d: Decoded, users: map<string, AuthUser>)
    requires GetCurrentUser(d, users).HttpError? && GetCurrentUser(d, users).status == 403
    ensures d.Claimed? && SubjectOf(d.claims).Some? && LookUp(users, SubjectOf(d.claims).value).Some?
    ensures LookUp(users, SubjectOf(d.claims).value).value.status != Active
  {
  }

  /** An object's attribute namespace, as far as `getattr` goes: its class
      name (for the error message) and the names it answers. */
  datatype Namespace = Namespace(className: string, names: set<string>)

  /** `core.config.settings`, the top-level `Settings` object: its fields
      and its sub-settings properties (core/config.py:113-166). The token
      settings are not among them. */
  const ModuleSettings := Namespace("Settings", {
    "app_name", "app_version", "environment", "debug", "api_prefix", "enable_metrics", "enable_tracing",
    "database", "azure_openai", "azure_search", "redis", "security", "rate_limit", "storage", "rag"})

  /** `settings.security`, the `SecuritySettings` object, which holds the key,
      the algorithm and the lifetimes, the access one in minutes. */
  const SecurityNamespace := Namespace("SecuritySettings", {
    "secret_key", "algorithm", "access_token_expire_minutes", "refresh_token_expire_days", "bcrypt_rounds", "cors_origins"})

  /** The first of `names`, read in order, that `ns` does not answer. */
  function FirstMissing(names: seq<string>, ns: Namespace): (r: Option<string>)
    ensures r.None? <==> forall n :: n in names ==> n in ns.names
    ensures r.Some? ==> r.value in names && r.value !in ns.names
  {
    if names == [] then None
    else if names[0] !in ns.names then Some(names[0])
    else FirstMissing(names[1..], ns)
  }

  /** The message of the AttributeError `ns.<name>` raises. */
  function NoAttribute(ns: Namespace, name: string): string {
    "AttributeError: '" + ns.className + "' object has no attribute '" + name + "'"
  }

  /** The settings `create_access_token` reads, in order: the default
      lifetime only for a falsy delta, then the key and the algorithm. */
  function AccessTokenReads(expiresDelta: Option<int>): seq<string> {
    (if expiresDelta.Some? && expiresDelta.value != 0 then [] else ["access_token_expire_days"]) + ["secret_key", "algorithm"]
  }

  const RefreshTokenReads := ["refresh_token_expire_days", "secret_key", "algorithm"]

  const DecodeReads := ["secret_key", "algorithm"]

  /** `create_access_token` as written, reading its settings from `ns`: the
      first one `ns` lacks raises AttributeError; otherwise the token signs
      the claims of `AccessClaims`, with `settings` holding the values read. */
  function AccessClaimsAsWritten(data: Claims, expiresDelta: Option<int>, now: int, ns: Namespace, settings: TokenSettings)
    : (r: Raising<Claims>)
    ensures r.Returned? <==> forall n :: n in AccessTokenReads(expiresDelta) ==> n in ns.names
    ensures r.Returned? ==> r.value == AccessClaims(data, expiresDelta, now, settings)
    ensures r.Raised? ==> exists n :: n in AccessTokenReads(expiresDelta) && n !in ns.names && r.message == NoAttribute(ns, n)
  {
    match FirstMissing(AccessTokenReads(expiresDelta), ns)
    case Some(n) => Raised(NoAttribute(ns, n))
    case None => Returned(AccessClaims(data, expiresDelta, now, settings))
  }

  /** `create_refresh_token` as written, reading its settings from `ns`. */
  function RefreshClaimsAsWritten(data: Claims, now: int, ns: Namespace, settings: TokenSettings): (r: Raising<Claims>)
    ensures r.Returned? <==> forall n :: n in RefreshTokenReads ==> n in ns.names
    ensures r.Returned? ==> r.value == RefreshClaims(data, now, settings)
    ensures r.Raised? ==> exists n :: n in RefreshTokenReads && n !in ns.names && r.message == NoAttribute(ns, n)
  {
    match FirstMissing(RefreshTokenReads, ns)
    case Some(n) => Raised(NoAttribute(ns, n))
    case None => Returned(RefreshClaims(data, now, settings))
  }

  /** `decode_token` as written, reading the key and the algorithm from `ns`
      while building the arguments of `jwt.decode`: a missing one raises
      AttributeError before anything is decoded, and `except JWTError` does
      not catch it. */
  function DecodeTokenAsWritten(d: Decoded, ns: Namespace): (r: Raising<HttpResult<Claims>>)
    ensures r.Returned? <==> "secret_key" in ns.names && "algorithm" in ns.names
    ensures r.Returned? ==> r.value == DecodeToken(d)
    ensures "secret_key" !in ns.names ==> r == Raised(NoAttribute(ns, "secret_key"))
  {
    match FirstMissing(DecodeReads, ns)
    case Some(n) => Raised(NoAttribute(ns, n))
    case None => Returned(DecodeToken(d))
  }

  /** `get_current_user` as written, decoding with the settings of `ns`: an
      AttributeError passes through `except JWTError` and the request ends in
      FastAPI's 500; otherwise it is `GetCurrentUser`. */
  function GetCurrentUserAsWritten(d: Decoded, users: map<string, AuthUser>, ns: Namespace): (r: HttpResult<AuthUser>)
    ensures DecodeTokenAsWritten(d, ns).Raised? ==> r == HttpError(500, "Internal Server Error")
    ensures DecodeTokenAsWritten(d, ns).Returned? ==> r == GetCurrentUser(d, users)
  {
    match DecodeTokenAsWritten(d, ns)
    case Raised(_) => HttpError(500, "Internal Server Error")
    case Returned(_) => GetCurrentUser(d, users)
  }

  /** None of the token settings is an attribute of the top-level object. */
  lemma ModuleSettingsLackTokenSettings()
    ensures "secret_key" !in ModuleSettings.names && "algorithm" !in ModuleSettings.names
    ensures "access_token_expire_days" !in ModuleSettings.names
    ensures "refresh_token_expire_days" !in ModuleSettings.names
  {
  }

  /** As written, on the module's `settings` object no token is ever made:
      both creators raise AttributeError, whatever the delta. */
  lemma AsWrittenTokensNeverMade(data: Claims, expiresDelta: Option<int>, now: int, settings: TokenSettings)
    ensures AccessClaimsAsWritten(data, expiresDelta, now, ModuleSettings, settings).Raised?
    ensures RefreshClaimsAsWritten(data, now, ModuleSettings, settings)
      == Raised(NoAttribute(ModuleSettings, "refresh_token_expire_days"))
  {
    ModuleSettingsLackTokenSettings();
  }

  /** As written, on the module's `settings` object no token is ever read:
      `decode_token` raises AttributeError on `settings.secret_key`, and
      `get_current_user` answers 500 to every request, so neither a user nor
      any of its 401 and 403 refusals ever comes back, and every route that
      depends on it (the admin and role gates included) fails first. */
  lemma AsWrittenTokenServiceFails(d: Decoded, users: map<string, AuthUser>)
    ensures DecodeTokenAsWritten(d, ModuleSettings) == Raised(NoAttribute(ModuleSettings, "secret_key"))
    ensures GetCurrentUserAsWritten(d, users, ModuleSettings) == HttpError(500, "Internal Server Error")
  {
    ModuleSettingsLackTokenSettings();
  }

  /** Read from `settings.security`, the reads the token service makes all
      succeed, except the access lifetime in days for a falsy delta, which
      `SecuritySettings` keeps in minutes: decoding and `get_current_user`
      then behave as `DecodeToken` and `GetCurrentUser` state. */
  lemma SecuritySettingsServeTokens(data: Claims, expiresDelta: Option<int>, now: int, settings: TokenSettings,
                                    d: Decoded, users: map<string, AuthUser>)
    ensures DecodeTokenAsWritten(d, SecurityNamespace) == Returned(DecodeToken(d))
    ensures GetCurrentUserAsWritten(d, users, SecurityNamespace) == GetCurrentUser(d, users)
    ensures RefreshClaimsAsWritten(data, now, SecurityNamespace, settings) == Returned(RefreshClaims(data, now, settings))
    ensures expiresDelta.Some? && expiresDelta.value != 0 ==>
      AccessClaimsAsWritten(data, expiresDelta, now, SecurityNamespace, settings)
        == Returned(AccessClaims(data, expiresDelta, now, settings))
    ensures expiresDelta.None? || expiresDelta.value == 0 ==>
      AccessClaimsAsWritten(data, expiresDelta, now, SecurityNamespace, settings).Raised?
  {
    assert "access_token_expire_days" !in SecurityNamespace.names;
  }

  /** `str(current_user.role)` in the 403 message: the Role's repr, or `None`. */
  function RoleText(role: Option<RoleRef>): string {
    if role.Some? then RoleRepr(role.value) else "None"
  }

  /** `require_admin` as written: `current_user.role != "admin"` compares a
      Role object (or `None`) with a string, which is always unequal, so every
      present user gets 403. */
  function RequireAdminAsWritten(current: Option<AuthUser>): (r: HttpResult<AuthUser>)
    ensures current.None? ==> r == HttpError(401, "Not authenticated")
    ensures current.Some? ==> r == HttpError(403, "Admin access required. Current role: " + RoleText(current.value.role))
  {
    match current
    case None => HttpError(401, "Not authenticated")
    case Some(u) => HttpError(403, "Admin access required. Current role: " + RoleText(u.role))
  }

  /** The checker `require_roles(allowed_roles)` builds, as written:
      `current_user.role not in allowed_roles` looks for a Role object (or
      `None`) in a list of strings, which never finds it. */
  function RoleCheckerAsWritten(allowedRoles: seq<string>, current: AuthUser): (r: HttpResult<AuthUser>)
    ensures r == HttpError(403, "Required roles: " + PyText.Join(allowedRoles, ", "))
  {
    HttpError(403, "Required roles: " + PyText.Join(allowedRoles, ", "))
  }

  /** As written neither gate admits anybody, not even a user whose role is
      the row named `admin`. */
  lemma AsWrittenGatesAdmitNobody(current: Option<AuthUser>, allowedRoles: seq<string>)
    ensures !RequireAdminAsWritten(current).Ok?
    ensures current.Some? ==> !RoleCheckerAsWritten(allowedRoles, current.value).Ok?
  {
  }

  /** The name of the user's role, the field the corrected gates compare. */
  function RoleNameOf(u: AuthUser): Option<string> {
    if u.role.Some? then Some(u.role.value.name) else None
  }

  /** `require_admin` with the role read through its name: no user → 401, a
      role not named exactly "admin" → 403 showing the role, otherwise the
      same user. */
  function RequireAdmin(current: Option<AuthUser>): (r: HttpResult<AuthUser>)
    ensures current.None? ==> r == HttpError(401, "Not authenticated")
    ensures current.Some? && RoleNameOf(current.value) != Some("admin") ==>
      r == HttpError(403, "Admin access required. Current role: " + RoleText(current.value.role))
    ensures r.Ok? <==> current.Some? && RoleNameOf(current.value) == Some("admin")
    ensures r.Ok? ==> r.value == current.value
  {
    match current
    case None => HttpError(401, "Not authenticated")
    case Some(u) =>
      if RoleNameOf(u) != Some("admin") then HttpError(403, "Admin access required. Current role: " + RoleText(u.role))
      else Ok(u)
  }

  /** The checker `require_roles(allowed_roles)` builds, with the role read
      through its name: 403 listing the allowed roles unless the user's role
      is named by one of them. */
  function RoleChecker(allowedRoles: seq<string>, current: AuthUser): (r: HttpResult<AuthUser>)
    ensures r.Ok? <==> current.role.Some? && current.role.value.name in allowedRoles
    ensures r.Ok? ==> r.value == current
    ensures r.HttpError? ==> r == HttpError(403, "Required roles: " + PyText.Join(allowedRoles, ", "))
  {
    if !(RoleNameOf(current).Some? && RoleNameOf(current).value in allowedRoles) then
      HttpError(403, "Required roles: " + PyText.Join(allowedRoles, ", "))
    else Ok(current)
  }

  /** `require_admin` is the role checker for `["admin"]` once a user is
      present, apart from the message of the refusal; and a user whose role
      row is named `admin` passes both. */
  lemma AdminIsSingleRoleCheck(u: AuthUser)
    ensures RequireAdmin(Some(u)).Ok? <==> RoleChecker(["admin"], u).Ok?
    ensures u.role.Some? && u.role.value.name == "admin" ==>
      RequireAdmin(Some(u)) == Ok(u) && RoleChecker(["admin"], u) == Ok(u)
  {
  }

  /** The index of the first row with `email`, the row `.first()` returns. */
  function FirstWithEmail(users: seq<AuthUser>, email: string): (r: Option<nat>)
    ensures r.Some? ==> (r.value < |users| && users[r.value].email == email
      && forall j :: 0 <= j < r.value ==> users[j].email != email)
    ensures r.None? ==> forall j :: 0 <= j < |users| ==> users[j].email != email
  {
    if users == [] then None
    else if users[0].email == email then Some(0)
    else match FirstWithEmail(users[1..], email)
      case None => None
      case Some(i) => Some(i + 1)
  }

  const NoPasswordAttribute := "AttributeError: 'User' object has no attribute 'password'"

  /** `authenticate_user` as written: it reads `user.password`, but the column
      is `password_hash`, so a known email raises AttributeError before any
      password check, and only an unknown email returns (`None`). The table is
      never changed: the `last_login` the method would set is not a column
      either, so the commit would not persist it. */
  function AuthenticateUserAsWritten(users: seq<AuthUser>, email: string, password: string): (r: Raising<Option<AuthUser>>)
    ensures r == Returned(None) <==> FirstWithEmail(users, email).None?
    ensures r.Raised? <==> exists j :: 0 <= j < |users| && users[j].email == email
    ensures r.Raised? ==> r.message == NoPasswordAttribute
  {
    if FirstWithEmail(users, email).None? then Returned(None) else Raised(NoPasswordAttribute)
  }

  /** As written nobody is ever authenticated, whatever the password: no call
      returns a user. */
  lemma AsWrittenAuthenticatesNobody(users: seq<AuthUser>, email: string, password: string)
    ensures !(AuthenticateUserAsWritten(users, email, password).Returned?
              && AuthenticateUserAsWritten(users, email, password).value.Some?)
  {
  }

  /** The user table `authenticate_user` queries and updates. */
  class UserTable {
    var users: seq<AuthUser>

    constructor (users: seq<AuthUser>)
      ensures this.users == users
    {
      this.users := users;
    }

    /** `authenticate_user` with the columns the login route uses
        (`password_hash`, `last_login_at`): `None` for an unknown email or a
        wrong password, with nothing changed; on success the first user with
        that email gets `last_login_at` set to `now`, and nothing else changes. */
    method AuthenticateUser(email: string, password: string, now: int, verify: (string, string) -> bool)
      returns (r: Option<AuthUser>)
      modifies this
      ensures FirstWithEmail(old(users), email).None? ==> r.None? && users == old(users)
      ensures FirstWithEmail(old(users), email).Some? ==>
        var i := FirstWithEmail(old(users), email).value;
        (!verify(password, old(users)[i].passwordHash) ==> r.None? && users == old(users))
        && (verify(password, old(users)[i].passwordHash) ==>
              users == old(users)[i := old(users)[i].(lastLoginAt := Some(now))] && r == Some(users[i]))
    {
      var found := FirstWithEmail(users, email);
      if found.None? {
        return None;
      }
      var i := found.value;
      if !verify(password, users[i].passwordHash) {
        return None;
      }
      users := users[i := users[i].(lastLoginAt := Some(now))];
      r := Some(users[i]);
    }
  }
}
