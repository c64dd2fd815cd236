/** api/middleware/auth.py: the middleware's token claims and error mapping,
    the JWT-then-API-token resolution of the current user, and the all-of
    permission checks of `require_permissions` and `PermissionChecker`.
    Decoding is foreign: its outcome is an argument. Times are whole seconds. */
module AuthMiddleware {

  import opened Common
  import opened PyText
  import CoreAuth
  import UserModel

  type Claims = map<string, Value>

  /** The settings the middleware's token lifetimes come from. */
  datatype SecuritySettings = SecuritySettings(accessTokenExpireMinutes: nat, refreshTokenExpireDays: nat)

  /** `AuthMiddleware.create_access_token`: the default lifetime is counted in
      minutes here, where core/auth.py counts days. */
  function AccessClaims(data: Claims, expiresDelta: Option<int>, now: int, settings: SecuritySettings): (c: Claims)
    ensures c.Keys == data.Keys + {"exp", "type"}
    ensures c["type"] == Str("access")
    ensures expiresDelta.Some? && expiresDelta.value != 0 ==> c["exp"] == Int(now + expiresDelta.value)
    ensures expiresDelta.None? || expiresDelta.value == 0 ==>
      c["exp"] == Int(now + settings.accessTokenExpireMinutes * 60)
    ensures forall k :: k in data && k != "exp" && k != "type" ==> c[k] == data[k]
  {
    var exp := if expiresDelta.Some? && expiresDelta.value != 0 then now + expiresDelta.value
               else now + settings.accessTokenExpireMinutes * 60;
    CoreAuth.WithExpiry(data, exp, "access")
  }

  /** `AuthMiddleware.create_refresh_token` */
  function RefreshClaims(data: Claims, now: int, settings: SecuritySettings): (c: Claims)
    ensures c.Keys == data.Keys + {"exp", "type"}
    ensures c["type"] == Str("refresh")
    ensures c["exp"] == Int(now + settings.refreshTokenExpireDays * CoreAuth.SecondsPerDay)
    ensures forall k :: k in data && k != "exp" && k != "type" ==> c[k] == data[k]
  {
    CoreAuth.WithExpiry(data, now + settings.refreshTokenExpireDays * CoreAuth.SecondsPerDay, "refresh")
  }

  /** What `jwt.decode` gives: the claims, an expired signature, or another
      JWT error. */
  datatype Decoded = Claimed(claims: Claims) | Expired | Invalid

  /** `AuthMiddleware.decode_token`: both failures are 401s, told apart only
      by their message. */
  function DecodeToken(d: Decoded): (r: HttpResult<Claims>)
    ensures r.Ok? <==> d.Claimed?
    ensures r.Ok? ==> r.value == d.claims
    ensures d.Expired? ==> r == HttpError(401, "Token has expired")
    ensures d.Invalid? ==> r == HttpError(401, "Could not validate credentials")
  {
    match d
    case Claimed(c) => Ok(c)
    case Expired => HttpError(401, "Token has expired")
    case Invalid => HttpError(401, "Could not validate credentials")
  }

  /** The AttributeError raised by evaluating `except jwt.JWTError`: the
      module imported as `jwt` is PyJWT, which defines no `JWTError`. */
  const NoJwtError := "AttributeError: module 'jwt' has no attribute 'JWTError'"

  /** `decode_token` as written. An `except` clause's class is evaluated only
      when an exception reaches it: an expired signature is caught by the
      first clause, and any other decoding error makes the second clause
      itself raise AttributeError, which escapes. */
  function DecodeTokenAsWritten(d: Decoded): (r: Raising<HttpResult<Claims>>)
    ensures r.Raised? <==> d.Invalid?
    ensures r.Raised? ==> r.message == NoJwtError
    ensures r.Returned? ==> r.value == DecodeToken(d)
  {
    match d
    case Invalid => Raised(NoJwtError)
    case _ => Returned(DecodeToken(d))
  }

  /** A user row: activity flag and the permissions of its role (`None` when
      it has no role). */
  datatype MwUser = MwUser(id: string, isActive: bool, rolePermissions: Option<seq<UserModel.PermissionRow>>)

  /** An `api_tokens` row. */
  datatype ApiToken = ApiToken(token: string, kind: string, userId: Option<string>, isActive: bool, lastUsedAt: Option<int>)

  predicate Usable(t: ApiToken, token: string) {
    t.token == token && t.isActive && t.kind == "user"
  }

  /** The index of the first usable row for `token`, the row `.first()` returns. */
  function FirstUsable(tokens: seq<ApiToken>, token: string): (r: Option<nat>)
    ensures r.Some? ==> (r.value < |tokens| && Usable(tokens[r.value], token)
      && forall j :: 0 <= j < r.value ==> !Usable(tokens[j], token))
    ensures r.None? ==> forall j :: 0 <= j < |tokens| ==> !Usable(tokens[j], token)
  {
    if tokens == [] then None
    else if Usable(tokens[0], token) then Some(0)
    else match FirstUsable(tokens[1..], token)
      case None => None
      case Some(i) => Some(i + 1)
  }

  /** The JWT path succeeds when the token decodes and names a subject; every
      HTTPException on it (decoding or missing `sub`) switches to API tokens. */
  function JwtSubject(d: Decoded): Option<Value> {
    if d.Claimed? then CoreAuth.SubjectOf(d.claims) else None
  }

  function FindUser(users: map<string, MwUser>, id: Value): Option<MwUser> {
    if id.Str? && id.s in users then Some(users[id.s]) else None
  }

  /** The user lookup shared by both paths, then the two final checks. */
  function Admit(user: Option<MwUser>): (r: HttpResult<MwUser>)
    ensures user.None? ==> r == HttpError(401, "User not found")
    ensures r.Ok? <==> user.Some? && user.value.isActive
    ensures user.Some? && !user.value.isActive ==> r == HttpError(403, "User account is inactive")
    ensures r.Ok? ==> r.value == user.value
  {
    match user
    case None => HttpError(401, "User not found")
    case Some(u) => if !u.isActive then HttpError(403, "User account is inactive") else Ok(u)
  }

  /** The user store `get_current_user` reads, and whose API tokens it stamps. */
  class AuthStore {
    var users: map<string, MwUser>
    var apiTokens: seq<ApiToken>

    constructor (users: map<string, MwUser>, apiTokens: seq<ApiToken>)
      ensures this.users == users && this.apiTokens == apiTokens
    {
      this.users := users;
      this.apiTokens := apiTokens;
    }

    /** `get_current_user`. A decoded token with a subject is looked up
        directly, even when no user has that id. Otherwise the first active
        `user` API token with this text is used and stamped with `now`; without
        one the answer is 401. Either way a missing user is 401 and an inactive
        one 403. */
    method GetCurrentUser(token: string, d: Decoded, now: int) returns (r: HttpResult<MwUser>)
      modifies this`apiTokens
      ensures JwtSubject(d).Some? ==>
        r == Admit(FindUser(users, JwtSubject(d).value)) && apiTokens == old(apiTokens)
      ensures JwtSubject(d).None? && FirstUsable(old(apiTokens), token).None? ==>
        r == HttpError(401, "Invalid authentication credentials") && apiTokens == old(apiTokens)
      ensures JwtSubject(d).None? && FirstUsable(old(apiTokens), token).Some? ==>
        var i := FirstUsable(old(apiTokens), token).value;
        apiTokens == old(apiTokens)[i := old(apiTokens)[i].(lastUsedAt := Some(now))]
        && r == Admit(if old(apiTokens)[i].userId.Some? then FindUser(users, Str(old(apiTokens)[i].userId.value)) else None)
    {
      var subject := JwtSubject(d);
      var user: Option<MwUser>;
      if subject.Some? {
        user := FindUser(users, subject.value);
      } else {
        var found := FirstUsable(apiTokens, token);
        if found.None? {
          return HttpError(401, "Invalid authentication credentials");
        }
        var i := found.value;
        apiTokens := apiTokens[i := apiTokens[i].(lastUsedAt := Some(now))];
        user := if apiTokens[i].userId.Some? then FindUser(users, Str(apiTokens[i].userId.value)) else None;
      }
      r := Admit(user);
    }

    /** `get_current_user` as written: the AttributeError of
        `DecodeTokenAsWritten` is no HTTPException, so `except HTTPException`
        lets it through and the request ends in FastAPI's 500, with no API
        token looked up or stamped; every other token goes as
        `GetCurrentUser` states. */
    method GetCurrentUserAsWritten(token: string, d: Decoded, now: int) returns (r: HttpResult<MwUser>)
      modifies this`apiTokens
      ensures d.Invalid? ==> r == HttpError(500, "Internal Server Error") && apiTokens == old(apiTokens)
      ensures !d.Invalid? && JwtSubject(d).Some? ==>
        r == Admit(FindUser(users, JwtSubject(d).value)) && apiTokens == old(apiTokens)
      ensures !d.Invalid? && JwtSubject(d).None? && FirstUsable(old(apiTokens), token).None? ==>
        r == HttpError(401, "Invalid authentication credentials") && apiTokens == old(apiTokens)
      ensures !d.Invalid? && JwtSubject(d).None? && FirstUsable(old(apiTokens), token).Some? ==>
        var i := FirstUsable(old(apiTokens), token).value;
        apiTokens == old(apiTokens)[i := old(apiTokens)[i].(lastUsedAt := Some(now))]
        && r == Admit(if old(apiTokens)[i].userId.Some? then FindUser(users, Str(old(apiTokens)[i].userId.value)) else None)
    {
      if DecodeTokenAsWritten(d).Raised? {
        return HttpError(500, "Internal Server Error");
      }
      r := GetCurrentUser(token, d, now);
    }
  }

  /** As written, the API-token lookup is reached only for an expired JWT or
      a decoded one without a subject: a token that does not decode at all,
      every plain API token among them, ends in the AttributeError instead. */
  lemma AsWrittenApiTokensNeedAJwt(d: Decoded)
    ensures (DecodeTokenAsWritten(d).Returned? && JwtSubject(d).None?)
            <==> d.Expired? || (d.Claimed? && CoreAuth.SubjectOf(d.claims).None?)
    ensures d.Invalid? ==> DecodeTokenAsWritten(d) == Raised(NoJwtError)
  {
  }

  /** `get_current_active_user`: 403 "Inactive user" for an inactive user. */
  function GetCurrentActiveUser(user: MwUser): (r: HttpResult<MwUser>)
    ensures r.Ok? <==> user.isActive
    ensures r.Ok? ==> r.value == user
    ensures r.HttpError? ==> r == HttpError(403, "Inactive user")
  {
    if !user.isActive then HttpError(403, "Inactive user") else Ok(user)
  }

  /** `get_current_active_user` on what `get_current_user` admitted never
      refuses: an inactive account was already refused with its own 403. */
  lemma ActiveCheckNeverFires(user: Option<MwUser>)
    ensures Admit(user).Ok? ==> GetCurrentActiveUser(Admit(user).value) == Admit(user)
  {
  }

  /** What a permission check can end in: `ValueError` is the unpacking of a
      permission string that does not split into exactly two parts. */
  datatype Outcome = Pass | Denied(status: nat, detail: string) | UnpackError

  /** The first failure of the loop over the required permissions. */
  function FirstFailure(required: seq<string>, perms: Option<seq<UserModel.PermissionRow>>): (r: Outcome)
    ensures r.Denied? ==> r.status == 403
    ensures required == [] ==> r == Pass
  {
    if required == [] then Pass
    else
      var parts := Split(required[0], ":");
      if |parts| != 2 then UnpackError
      else if !UserModel.HasPermission(perms, parts[0], parts[1]) then
        Denied(403, "Missing required permission: " + required[0])
      else FirstFailure(required[1..], perms)
  }

  /** `resource, action = permission.split(':')` succeeded and granted. */
  predicate Granted(permission: string, perms: Option<seq<UserModel.PermissionRow>>) {
    var parts := Split(permission, ":");
    |parts| == 2 && UserModel.HasPermission(perms, parts[0], parts[1])
  }

  /** One round of the loop: a granted permission moves on to the next;
      any other stops the loop, with a 403 naming it unless it is
      malformed. */
  lemma FirstFailureStep(required: seq<string>, perms: Option<seq<UserModel.PermissionRow>>)
    requires required != []
    ensures Granted(required[0], perms) ==> FirstFailure(required, perms) == FirstFailure(required[1..], perms)
    ensures !Granted(required[0], perms) ==> FirstFailure(required, perms) != Pass
    ensures !Granted(required[0], perms) && FirstFailure(required, perms).Denied? ==>
      FirstFailure(required, perms).detail == "Missing required permission: " + required[0]
  {
  }

  /** The loop passes exactly when every permission is well formed and held. */
  lemma {:induction false} FirstFailureIff(required: seq<string>, perms: Option<seq<UserModel.PermissionRow>>)
    ensures FirstFailure(required, perms) == Pass <==> forall i :: 0 <= i < |required| ==> Granted(required[i], perms)
  {
    if required != [] {
      FirstFailureStep(required, perms);
      FirstFailureIff(required[1..], perms);
      assert forall i :: 0 <= i < |required[1..]| ==> required[1..][i] == required[i + 1];
      if forall i :: 0 <= i < |required[1..]| ==> Granted(required[1..][i], perms) {
        if Granted(required[0], perms) {
          forall i | 0 <= i < |required|
            ensures Granted(required[i], perms)
          {
            if i > 0 {
              assert required[i] == required[1..][i - 1];
            }
          }
        }
      }
    }
  }

  /** A 403 from the loop names the first permission that is not held; all
      before it are held. */
  lemma {:induction false} FirstFailureNamesFirst(required: seq<string>, perms: Option<seq<UserModel.PermissionRow>>)
    ensures FirstFailure(required, perms).Denied? ==>
      exists i :: (0 <= i < |required|
        && FirstFailure(required, perms).detail == "Missing required permission: " + required[i]
        && !Granted(required[i], perms) && forall j :: 0 <= j < i ==> Granted(required[j], perms))
  {
    if required != [] {
      FirstFailureStep(required, perms);
      if FirstFailure(required, perms).Denied? {
        if Granted(required[0], perms) {
          FirstFailureNamesFirst(required[1..], perms);
          var i :| 0 <= i < |required[1..]|
            && FirstFailure(required[1..], perms).detail == "Missing required permission: " + required[1..][i]
            && !Granted(required[1..][i], perms) && forall j :: 0 <= j < i ==> Granted(required[1..][j], perms);
          assert required[1..][i] == required[i + 1];
          forall j | 0 <= j < i + 1
            ensures Granted(required[j], perms)
          {
            if j > 0 {
              assert required[j] == required[1..][j - 1];
            }
          }
        } else {
          assert !Granted(required[0], perms);
        }
      }
    }
  }

  /** The `for permission in required_permissions` loop with its early exit. */
  method CheckAll(required: seq<string>, user: MwUser) returns (r: Outcome)
    ensures r == FirstFailure(required, user.rolePermissions)
  {
    var i := 0;
    while i < |required|
      invariant 0 <= i <= |required|
      invariant FirstFailure(required, user.rolePermissions) == FirstFailure(required[i..], user.rolePermissions)
    {
      assert required[i..][1..] == required[i + 1..];
      var parts := Split(required[i], ":");
      if |parts| != 2 {
        return UnpackError;
      }
      if !UserModel.HasPermission(user.rolePermissions, parts[0], parts[1]) {
        return Denied(403, "Missing required permission: " + required[i]);
      }
      i := i + 1;
    }
    return Pass;
  }

  /** The wrapper of `require_permissions`: the user is the `current_user`
      keyword argument, else the `user` one; without either the answer is 401. */
  method RequirePermissions(required: seq<string>, currentUser: Option<MwUser>, userArg: Option<MwUser>)
    returns (r: Outcome)
    ensures currentUser.None? && userArg.None? ==> r == Denied(401, "Authentication required")
    ensures currentUser.Some? ==> r == FirstFailure(required, currentUser.value.rolePermissions)
    ensures currentUser.None? && userArg.Some? ==> r == FirstFailure(required, userArg.value.rolePermissions)
  {
    var user := if currentUser.Some? then currentUser else userArg;
    if user.None? {
      return Denied(401, "Authentication required");
    }
    r := CheckAll(required, user.value);
  }

  /** `PermissionChecker.__call__`: the same loop; on success the user itself. */
  method PermissionChecker(required: seq<string>, user: MwUser) returns (r: Outcome, passed: Option<MwUser>)
    ensures r == FirstFailure(required, user.rolePermissions)
    ensures passed == (if r == Pass then Some(user) else None)
  {
    r := CheckAll(required, user);
    passed := if r == Pass then Some(user) else None;
  }

  /** A user without a role passes only an empty requirement list. */
  lemma RoleLessUserPassesNothing(required: seq<string>)
    ensures FirstFailure(required, None) == Pass <==> required == []
  {
    FirstFailureIff(required, None);
    if required != [] {
      assert !Granted(required[0], None);
    }
  }
}
