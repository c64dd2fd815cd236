/** frontend/app/contexts/auth-context.tsx: the browser-side session. It keeps
    the token pair in `localStorage`, normalises user payloads from the
    backend and derives `isAdmin`/`isAuthenticated`. The network is a
    parameter: each operation receives the response the server would give. */
module AuthContext {

  import opened Common
  import PyText

  /** The nested `role` object of a payload. */
  datatype RoleObj = RoleObj(name: Option<string>)

  /** A user object as the backend sends it; `None` is a missing or `null`
      field, and a boolean field that is not a boolean is also `None`. */
  datatype UserPayload = UserPayload(
    id: Option<string>,
    email: Option<string>,
    fullName: Option<string>,
    name: Option<string>,
    roleId: Option<string>,
    role: Option<RoleObj>,
    roleName: Option<string>,
    isActive: Option<bool>)

  /** The normalised user kept in React state. */
  datatype User = User(
    id: string,
    email: string,
    name: string,
    roleId: Option<string>,
    roleName: Option<string>,
    isActive: bool)

  /** JavaScript truthiness of an optional string: present and non-empty. */
  predicate Truthy(s: Option<string>) {
    s.Some? && s.value != []
  }

  /** `a || b` on optional strings. */
  function Or(a: Option<string>, b: Option<string>): (r: Option<string>)
    ensures Truthy(r) <==> Truthy(a) || Truthy(b)
    ensures Truthy(a) ==> r == a
  {
    if Truthy(a) then a else b
  }

  /** `a || fallback` with a non-empty fallback. */
  function OrElse(a: Option<string>, fallback: string): (r: string)
    ensures Truthy(a) ==> r == a.value
    ensures !Truthy(a) ==> r == fallback
  {
    if Truthy(a) then a.value else fallback
  }

  /** `x || undefined`: drops an empty string. */
  function Defined(a: Option<string>): (r: Option<string>)
    ensures r.Some? <==> Truthy(a)
    ensures r.Some? ==> r == a
  {
    if Truthy(a) then a else None
  }

  /** `(role && role.name) || role_name || undefined` */
  function RoleNameOf(role: Option<RoleObj>, roleName: Option<string>): (r: Option<string>)
    ensures r.Some? ==> r.value != []
    ensures role.Some? && Truthy(role.value.name) ==> r == role.value.name
    ensures (role.None? || !Truthy(role.value.name)) ==> r == Defined(roleName)
  {
    Defined(Or(if role.Some? then role.value.name else None, roleName))
  }

  /** The `/auth/me` payload normalisation of `checkAuth`. */
  function FromMe(p: UserPayload): (u: User)
    ensures u.name != []
    ensures Truthy(p.fullName) ==> u.name == p.fullName.value
    ensures !Truthy(p.fullName) && Truthy(p.name) ==> u.name == p.name.value
    ensures !Truthy(p.fullName) && !Truthy(p.name) ==> u.name == "User"
    ensures Truthy(p.id) ==> u.id == p.id.value
    ensures !Truthy(p.id) ==> u.id == ""
    ensures Truthy(p.email) ==> u.email == p.email.value
    ensures !Truthy(p.email) ==> u.email == ""
    ensures u.roleId == Defined(p.roleId)
    ensures u.roleName == RoleNameOf(p.role, p.roleName)
    ensures u.isActive <==> p.isActive != Some(false)
  {
    User(OrElse(p.id, ""), OrElse(p.email, ""), OrElse(Or(p.fullName, p.name), "User"),
         Defined(p.roleId), RoleNameOf(p.role, p.roleName), p.isActive != Some(false))
  }

  /** The login payload normalisation: the same, except that a missing `user`
      is tolerated (`data.user?.x`) and the email falls back to the one typed in. */
  function FromLogin(p: Option<UserPayload>, email: string): (u: User)
    ensures u.name != []
    ensures p.None? ==> u == User("", email, "User", None, None, true)
    ensures p.Some? && Truthy(p.value.email) ==> u == FromMe(p.value)
    ensures p.Some? ==> u == FromMe(p.value).(email := OrElse(p.value.email, email))
  {
    match p
    case None => User("", email, "User", None, None, true)
    case Some(q) =>
      User(OrElse(q.id, ""), OrElse(q.email, email), OrElse(Or(q.fullName, q.name), "User"),
           Defined(q.roleId), RoleNameOf(q.role, q.roleName), q.isActive != Some(false))
  }

  /** The register payload normalisation: the display name also falls back to
      the name typed in, and `role_name` is never set. */
  function FromRegister(p: Option<UserPayload>, email: string, name: Option<string>): (u: User)
    ensures u.name != []
    ensures u.roleName == None
    ensures u == FromLogin(p, email).(name := u.name, roleName := None)
  {
    var q := if p.Some? then p.value.fullName else None;
    var n := if p.Some? then p.value.name else None;
    var base := FromLogin(p, email);
    base.(name := OrElse(Or(Or(q, n), name), "User"), roleName := None)
  }

  /** Register and login agree on the display name whenever the payload
      carries one; otherwise register uses the typed-in name. */
  lemma RegisterNameFallback(p: Option<UserPayload>, email: string, name: Option<string>)
    ensures p.Some? && (Truthy(p.value.fullName) || Truthy(p.value.name))
        ==> FromRegister(p, email, name).name == FromLogin(p, email).name
    ensures (p.None? || (!Truthy(p.value.fullName) && !Truthy(p.value.name))) && Truthy(name)
        ==> FromRegister(p, email, name).name == name.value
  {
  }

  /** `isAdmin`: `role_id` contains "admin" case-insensitively, or `role_name`
      is "admin" case-insensitively. */
  function IsAdmin(user: Option<User>): (r: bool)
    ensures user.None? ==> !r
  {
    user.Some? &&
    ((user.value.roleId.Some? && PyText.Contains(PyText.Lower(user.value.roleId.value), "admin"))
     || (user.value.roleName.Some? && user.value.roleName.value != [] && PyText.Lower(user.value.roleName.value) == "admin"))
  }

  /** `isAuthenticated` is `!!user`. */
  function IsAuthenticated(user: Option<User>): (r: bool)
    ensures r <==> user.Some?
  {
    user.Some?
  }

  /** The post-login redirect test: nested `role.name` exactly "admin", or
      `role_id` containing "admin" with that exact case. */
  predicate LoginGoesToAdmin(p: Option<UserPayload>) {
    p.Some? &&
    ((p.value.role.Some? && p.value.role.value.name == Some("admin"))
     || (Truthy(p.value.roleId) && PyText.Contains(p.value.roleId.value, "admin")))
  }

  lemma LowerAdmin()
    ensures PyText.Lower("admin") == "admin"
  {
  }

  /** A login that redirects to `/admin` leaves a session that `isAdmin` accepts. */
  lemma AdminRedirectImpliesIsAdmin(p: Option<UserPayload>, email: string)
    requires LoginGoesToAdmin(p)
    ensures IsAdmin(Some(FromLogin(p, email)))
  {
    var u := FromLogin(p, email);
    LowerAdmin();
    if p.value.role.Some? && p.value.role.value.name == Some("admin") {
      assert u.roleName == Some("admin");
    } else {
      assert u.roleId == p.value.roleId;
      PyText.LowerKeepsLowerInfix(p.value.roleId.value, "admin");
    }
  }

  /** The converse fails: an upper-case `role_id` passes `isAdmin` but the login
      redirect, which is case-sensitive, sends the user to `/home`; so does a
      flat `role_name` of "admin". */
  lemma IsAdminWithoutAdminRedirect()
    ensures var p := UserPayload(None, None, None, None, Some("ADMIN"), None, None, None);
            IsAdmin(Some(FromLogin(Some(p), "a@b"))) && !LoginGoesToAdmin(Some(p))
    ensures var p := UserPayload(None, None, None, None, None, None, Some("admin"), None);
            IsAdmin(Some(FromLogin(Some(p), "a@b"))) && !LoginGoesToAdmin(Some(p))
  {
    var p := UserPayload(None, None, None, None, Some("ADMIN"), None, None, None);
    assert PyText.Lower("ADMIN") == "admin";
    assert PyText.OccursAt(PyText.Lower("ADMIN"), "admin", 0);
    assert !PyText.Contains("ADMIN", "admin") by {
      forall i: nat | i <= 5 ensures !PyText.OccursAt("ADMIN", "admin", i) {
        if i == 0 { assert "ADMIN"[0] != "admin"[0]; }
      }
    }
    LowerAdmin();
  }

  const AccessTokenKey: string := "access_token"
  const RefreshTokenKey: string := "refresh_token"

  /** The outcome of `fetch('/auth/me')`: a thrown error, a non-OK status, or an
      OK status whose JSON body is an object (`Some`) or not (`None`). */
  datatype MeResponse = MeThrew | MeNotOk | MeOk(body: Option<UserPayload>)

  /** The outcome of `fetch('/auth/login')` or `fetch('/auth/register')`. */
  datatype AuthResponse =
    | AuthFailed(detail: Option<string>)
    | AuthOk(accessToken: string, refreshToken: string, user: Option<UserPayload>)

  /** The provider's state: browser storage, the user, the loading flag and the
      router's navigation history. */
  class AuthProvider {
    var storage: map<string, string>
    var user: Option<User>
    var loading: bool
    var navigations: seq<string>

    constructor (storage: map<string, string>)
      ensures this.storage == storage && user == None && loading && navigations == []
    {
      this.storage := storage;
      user := None;
      loading := true;
      navigations := [];
    }

    /** `checkAuth`: returns whether `/auth/me` was requested. */
    method CheckAuth(response: MeResponse) returns (requested: bool)
      modifies this`storage, this`user, this`loading
      ensures !loading
      ensures requested <==> AccessTokenKey in old(storage) && old(storage)[AccessTokenKey] != []
      ensures !requested ==> storage == old(storage) && user == old(user)
      ensures requested && response.MeNotOk? ==>
        storage == old(storage) - {AccessTokenKey, RefreshTokenKey} && user == old(user)
      ensures requested && response.MeThrew? ==> storage == old(storage) && user == old(user)
      ensures requested && response.MeOk? ==>
        storage == old(storage) &&
        user == (if response.body.Some? then Some(FromMe(response.body.value)) else old(user))
    {
      requested := AccessTokenKey in storage && storage[AccessTokenKey] != [];
      if !requested {
        loading := false;
        return;
      }
      match response {
        case MeOk(body) =>
          if body.Some? {
            user := Some(FromMe(body.value));
          }
        case MeNotOk =>
          storage := storage - {AccessTokenKey};
          storage := storage - {RefreshTokenKey};
        case MeThrew =>
      }
      loading := false;
    }

    /** `login`: on failure returns the thrown message and changes nothing. */
    method Login(email: string, response: AuthResponse) returns (error: Option<string>)
      modifies this`storage, this`user, this`navigations
      ensures response.AuthFailed? ==>
        error == Some(OrElse(response.detail, "Login failed"))
        && storage == old(storage) && user == old(user) && navigations == old(navigations)
      ensures response.AuthOk? ==>
        error == None
        && storage == old(storage)[AccessTokenKey := response.accessToken][RefreshTokenKey := response.refreshToken]
        && user == Some(FromLogin(response.user, email))
        && navigations == old(navigations) + [if LoginGoesToAdmin(response.user) then "/admin" else "/home"]
    {
      match response
      case AuthFailed(detail) =>
        error := Some(OrElse(detail, "Login failed"));
      case AuthOk(access, refresh, payload) =>
        storage := storage[AccessTokenKey := access];
        storage := storage[RefreshTokenKey := refresh];
        user := Some(FromLogin(payload, email));
        if LoginGoesToAdmin(payload) {
          navigations := navigations + ["/admin"];
        } else {
          navigations := navigations + ["/home"];
        }
        error := None;
    }

    /** `register`: the same shape as login, but always navigates to `/home`. */
    method Register(email: string, name: Option<string>, response: AuthResponse) returns (error: Option<string>)
      modifies this`storage, this`user, this`navigations
      ensures response.AuthFailed? ==>
        error == Some(OrElse(response.detail, "Registration failed"))
        && storage == old(storage) && user == old(user) && navigations == old(navigations)
      ensures response.AuthOk? ==>
        error == None
        && storage == old(storage)[AccessTokenKey := response.accessToken][RefreshTokenKey := response.refreshToken]
        && user == Some(FromRegister(response.user, email, name))
        && navigations == old(navigations) + ["/home"]
    {
      match response
      case AuthFailed(detail) =>
        error := Some(OrElse(detail, "Registration failed"));
      case AuthOk(access, refresh, payload) =>
        storage := storage[AccessTokenKey := access];
        storage := storage[RefreshTokenKey := refresh];
        user := Some(FromRegister(payload, email, name));
        navigations := navigations + ["/home"];
        error := None;
    }

    /** The `full_name` the register request sends: `name || email`. */
    static function RegisterFullName(email: string, name: Option<string>): (r: string)
      ensures Truthy(name) ==> r == name.value
      ensures !Truthy(name) ==> r == email
    {
      OrElse(name, email)
    }

    /** `logout`: local only, no request. */
    method Logout()
      modifies this`storage, this`user, this`navigations
      ensures storage == old(storage) - {AccessTokenKey, RefreshTokenKey}
      ensures user == None && !IsAuthenticated(user) && !IsAdmin(user)
      ensures navigations == old(navigations) + ["/login"]
    {
      storage := storage - {AccessTokenKey};
      storage := storage - {RefreshTokenKey};
      user := None;
      navigations := navigations + ["/login"];
    }
  }
}
