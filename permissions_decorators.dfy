/** core/permissions_decorators.py: the four endpoint decorators over the
    static role table. Each wrapper's decision is modelled; `Proceed` means the
    wrapped endpoint is called with the same arguments. */
module PermissionsDecorators {

  import opened Common
  import opened Rbac
  import PyText

  /** The wrapper's decision: call through, raise an HTTPException with a
      status, or let `RoleEnum(...)` raise ValueError. */
  datatype Decision = Proceed | Raise(status: nat, detail: string) | RoleValueError

  /** The authenticated user as the wrapper sees it; only `role_id` is read. */
  datatype CurrentUser = CurrentUser(roleId: Option<string>)

  /** `RoleEnum(current_user.role_id or "user")` */
  function DerivedRole(roleId: Option<string>): (r: Option<Role>)
    ensures (roleId.None? || roleId.value == []) ==> r == Some(UserRole)
    ensures roleId.Some? && roleId.value != [] ==> r == ParseRole(roleId.value)
  {
    ParseRole(if roleId.Some? && roleId.value != [] then roleId.value else "user")
  }

  /** Python's `repr` of a list of strings without quotes or backslashes:
      `['a', 'b']`. */
  function ListRepr(items: seq<string>): string {
    "[" + PyText.Join(seq(|items|, i requires 0 <= i < |items| => "'" + items[i] + "'"), ", ") + "]"
  }

  function PermValues(ps: seq<Permission>): seq<string> {
    seq(|ps|, i requires 0 <= i < |ps| => PermValue(ps[i]))
  }

  function RoleValues(roles: seq<Role>): seq<string> {
    seq(|roles|, i requires 0 <= i < |roles| => RoleValue(roles[i]))
  }

  /** What a wrapper requires: one permission, any or all of a list, or one
      of a list of roles. */
  datatype Requirement =
    | OnePermission(p: Permission)
    | AnyOf(ps: seq<Permission>)
    | AllOf(ps: seq<Permission>)
    | OneOfRoles(roles: seq<Role>)

  /** Whether a role meets the requirement, by the membership tests of the
      role table. */
  predicate Meets(role: Role, req: Requirement) {
    match req
    case OnePermission(p) => HasPermission(RoleValue(role), p)
    case AnyOf(ps) => HasAnyPermission(RoleValue(role), ps)
    case AllOf(ps) => HasAllPermissions(RoleValue(role), ps)
    case OneOfRoles(roles) => role in roles
  }

  /** The detail of the 403 each wrapper raises. */
  function Detail(req: Requirement): string {
    match req
    case OnePermission(p) => "Permission denied. Required: " + PermValue(p)
    case AnyOf(ps) => "Permission denied. Required any of: " + ListRepr(PermValues(ps))
    case AllOf(ps) => "Permission denied. Required all of: " + ListRepr(PermValues(ps))
    case OneOfRoles(roles) => "Forbidden. Required roles: " + ListRepr(RoleValues(roles))
  }

  /** The body shared by the four wrappers: 401 first, then the role lookup,
      then the requirement, whose failure is a 403 naming what was required. */
  function Gate(user: Option<CurrentUser>, req: Requirement): (d: Decision)
    ensures user.None? ==> d == Raise(401, "Not authenticated")
    ensures user.Some? && DerivedRole(user.value.roleId).None? ==> d == RoleValueError
    ensures d == Proceed <==> user.Some? && DerivedRole(user.value.roleId).Some? && Meets(DerivedRole(user.value.roleId).value, req)
    ensures user.Some? && DerivedRole(user.value.roleId).Some? && !Meets(DerivedRole(user.value.roleId).value, req) ==>
      d == Raise(403, Detail(req))
  {
    if user.None? then Raise(401, "Not authenticated")
    else match DerivedRole(user.value.roleId)
      case None => RoleValueError
      case Some(role) => if Meets(role, req) then Proceed else Raise(403, Detail(req))
  }

  /** `require_permission(p)` */
  function RequirePermission(user: Option<CurrentUser>, p: Permission): Decision {
    Gate(user, OnePermission(p))
  }

  /** `require_any_permission(ps)` */
  function RequireAnyPermission(user: Option<CurrentUser>, ps: seq<Permission>): Decision {
    Gate(user, AnyOf(ps))
  }

  /** `require_all_permissions(ps)` */
  function RequireAllPermissions(user: Option<CurrentUser>, ps: seq<Permission>): Decision {
    Gate(user, AllOf(ps))
  }

  /** `require_role(*roles)` */
  function RequireRole(user: Option<CurrentUser>, roles: seq<Role>): Decision {
    Gate(user, OneOfRoles(roles))
  }

  /** A missing user is rejected with 401 before the role is even looked up,
      by every wrapper. */
  lemma UnauthenticatedFirst(p: Permission, ps: seq<Permission>, roles: seq<Role>)
    ensures RequirePermission(None, p) == Raise(401, "Not authenticated")
    ensures RequireAnyPermission(None, ps) == Raise(401, "Not authenticated")
    ensures RequireAllPermissions(None, ps) == Raise(401, "Not authenticated")
    ensures RequireRole(None, roles) == Raise(401, "Not authenticated")
  {
  }

  /** A `role_id` that is not a role value is a ValueError, never a 403. */
  lemma BadRoleIdIsValueError(roleId: string, p: Permission)
    requires roleId != [] && ParseRole(roleId).None?
    ensures RequirePermission(Some(CurrentUser(Some(roleId))), p) == RoleValueError
  {
  }

  /** A user with no `role_id` is treated as the "user" role: only chat
      creation, chat reading and knowledge reading pass. */
  lemma NoRoleIdActsAsUser(p: Permission)
    ensures RequirePermission(Some(CurrentUser(None)), p) == Proceed
        <==> p == ChatCreate || p == ChatRead || p == KnowledgeRead
  {
    assert DerivedRole(None) == Some(UserRole);
    HasPermissionOfRole(UserRole, p);
  }

  /** On a single permission the three permission wrappers let the same
      users through and reject the others with the same status; the empty
      list denies under "any" and admits under "all". */
  lemma WrappersAgree(user: Option<CurrentUser>, p: Permission)
    ensures RequirePermission(user, p).Proceed? == RequireAnyPermission(user, [p]).Proceed?
      == RequireAllPermissions(user, [p]).Proceed?
    ensures RequirePermission(user, p).Raise? ==>
      RequireAnyPermission(user, [p]).Raise? && RequireAllPermissions(user, [p]).Raise?
      && RequirePermission(user, p).status == RequireAnyPermission(user, [p]).status == RequireAllPermissions(user, [p]).status
    ensures user.Some? && DerivedRole(user.value.roleId).Some? ==>
      RequireAnyPermission(user, []) != Proceed && RequireAllPermissions(user, []) == Proceed
  {
    SingleListAgrees(user, p);
    if user.Some? && DerivedRole(user.value.roleId).Some? {
      EmptyListGates(user);
    }
  }

  lemma SingleListAgrees(user: Option<CurrentUser>, p: Permission)
    ensures Gate(user, OnePermission(p)).Proceed? == Gate(user, AnyOf([p])).Proceed? == Gate(user, AllOf([p])).Proceed?
    ensures Gate(user, OnePermission(p)).Raise? ==>
      Gate(user, AnyOf([p])).Raise? && Gate(user, AllOf([p])).Raise?
      && Gate(user, OnePermission(p)).status == Gate(user, AnyOf([p])).status == Gate(user, AllOf([p])).status
  {
    if user.Some? && DerivedRole(user.value.roleId).Some? {
      SingletonAgreement(RoleValue(DerivedRole(user.value.roleId).value), p);
    }
    SameVerdict(user, OnePermission(p), AnyOf([p]));
    SameVerdict(user, OnePermission(p), AllOf([p]));
  }

  lemma EmptyListGates(user: Option<CurrentUser>)
    requires user.Some? && DerivedRole(user.value.roleId).Some?
    ensures RequireAnyPermission(user, []) != Proceed && RequireAllPermissions(user, []) == Proceed
  {
    AllImpliesAny(RoleValue(DerivedRole(user.value.roleId).value), []);
  }

  /** Two requirements the caller's role meets alike get the same kind of
      decision and the same status. */
  lemma SameVerdict(user: Option<CurrentUser>, r1: Requirement, r2: Requirement)
    requires user.Some? && DerivedRole(user.value.roleId).Some? ==>
      (Meets(DerivedRole(user.value.roleId).value, r1) <==> Meets(DerivedRole(user.value.roleId).value, r2))
    ensures Gate(user, r1).Proceed? == Gate(user, r2).Proceed?
    ensures Gate(user, r1).Raise? ==> Gate(user, r2).Raise? && Gate(user, r1).status == Gate(user, r2).status
  {
  }

  /** The 403 of `require_permission` tells the permissions apart: two
      refusals with the same detail were for the same permission. */
  lemma DetailNamesPermission(p: Permission, q: Permission)
    ensures Detail(OnePermission(p)) == Detail(OnePermission(q)) ==> p == q
  {
    var prefix := "Permission denied. Required: ";
    if Detail(OnePermission(p)) == Detail(OnePermission(q)) {
      assert PermValue(p) == Detail(OnePermission(p))[|prefix|..];
      assert PermValue(q) == Detail(OnePermission(q))[|prefix|..];
      PermValueInjective(p, q);
    }
  }
}
