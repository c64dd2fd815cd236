/** api/models/user.py (with the rows of api/models/role.py it reads): the
    account status enum and `User.has_permission`, a search over the
    permissions linked to the user's role. */
module UserModel {

  import opened Common

  /** `UserStatus` */
  datatype UserStatus = Active | Inactive | Suspended | Pending

  function StatusValue(s: UserStatus): string {
    match s
    case Active => "active"
    case Inactive => "inactive"
    case Suspended => "suspended"
    case Pending => "pending"
  }

  /** `UserStatus(value)`; `None` is the ValueError. */
  function ParseStatus(v: string): (r: Option<UserStatus>)
    ensures r.Some? ==> StatusValue(r.value) == v
  {
    if v == "active" then Some(Active)
    else if v == "inactive" then Some(Inactive)
    else if v == "suspended" then Some(Suspended)
    else if v == "pending" then Some(Pending)
    else None
  }

  /** The enum has exactly four values and each parses back to itself. */
  lemma StatusRoundTrip(s: UserStatus)
    ensures ParseStatus(StatusValue(s)) == Some(s)
  {
  }

  /** A `roles` row, as the `User.role` relationship yields it: an ORM object
      whose class defines no `__eq__` or `__hash__`, so it equals only itself
      and never a string or an enum member. */
  datatype RoleRef = RoleRef(id: string, name: string)

  /** `Role.__repr__`, which `str()` and f-strings fall back to. */
  function RoleRepr(r: RoleRef): (s: string)
    ensures |s| == |r.id| + |r.name| + 18 && s[..6] == "<Role("
  {
    "<Role(id=" + r.id + ", name=" + r.name + ")>"
  }

  /** A `permissions` row. */
  datatype PermissionRow = PermissionRow(name: string, resource: string, action: string, description: Option<string>)

  predicate Grants(p: PermissionRow, resource: string, action: string) {
    p.resource == resource && p.action == action
  }

  /** The loop of `has_permission` over the role's linked permissions. */
  function AnyGrants(perms: seq<PermissionRow>, resource: string, action: string): (r: bool)
    ensures r <==> exists i :: 0 <= i < |perms| && Grants(perms[i], resource, action)
  {
    if perms == [] then false
    else if Grants(perms[0], resource, action) then true
    else AnyGrants(perms[1..], resource, action)
  }

  /** `has_permission(resource, action)`; `role` is `None` when the user has no
      role, otherwise the permissions its RolePermission rows link to. */
  function HasPermission(role: Option<seq<PermissionRow>>, resource: string, action: string): (r: bool)
    ensures role.None? ==> !r
  {
    role.Some? && AnyGrants(role.value, resource, action)
  }

  /** Matching only the resource, or only the action, never grants. */
  lemma PartialMatchDoesNotGrant(perms: seq<PermissionRow>, resource: string, action: string)
    requires forall i :: 0 <= i < |perms| ==> perms[i].resource != resource || perms[i].action != action
    ensures !HasPermission(Some(perms), resource, action)
  {
  }

  /** Linking one more permission to the role can only turn a refusal into a
      grant, and only for that permission's own resource and action. */
  lemma AddingLinkIsMonotone(perms: seq<PermissionRow>, extra: PermissionRow, resource: string, action: string)
    ensures HasPermission(Some(perms), resource, action) ==> HasPermission(Some(perms + [extra]), resource, action)
    ensures HasPermission(Some(perms + [extra]), resource, action)
        ==> HasPermission(Some(perms), resource, action) || Grants(extra, resource, action)
  {
    if HasPermission(Some(perms), resource, action) {
      var i :| 0 <= i < |perms| && Grants(perms[i], resource, action);
      assert (perms + [extra])[i] == perms[i];
    }
    if HasPermission(Some(perms + [extra]), resource, action) {
      var i :| 0 <= i < |perms + [extra]| && Grants((perms + [extra])[i], resource, action);
      if i < |perms| { assert (perms + [extra])[i] == perms[i]; }
    }
  }
}
