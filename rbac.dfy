/** core/rbac.py: the static permission catalogue, the six roles and the
    role-to-permission table with its three membership tests. */
module Rbac {

  import opened Common

  /** `PermissionEnum`, in declaration order. */
  datatype Permission =
    | UserCreate | UserRead | UserUpdate | UserDelete
    | AgentCreate | AgentRead | AgentUpdate | AgentDelete | AgentDeploy
    | KnowledgeCreate | KnowledgeRead | KnowledgeUpdate | KnowledgeDelete | KnowledgePublish
    | ModelCreate | ModelRead | ModelUpdate | ModelDelete
    | DatasetCreate | DatasetRead | DatasetUpdate | DatasetDelete
    | ChatCreate | ChatRead | ChatDelete
    | SettingsRead | SettingsUpdate | SystemAdmin

  /** Iterating `PermissionEnum`. */
  const AllPermissions: seq<Permission> := [
    UserCreate, UserRead, UserUpdate, UserDelete,
    AgentCreate, AgentRead, AgentUpdate, AgentDelete, AgentDeploy,
    KnowledgeCreate, KnowledgeRead, KnowledgeUpdate, KnowledgeDelete, KnowledgePublish,
    ModelCreate, ModelRead, ModelUpdate, ModelDelete,
    DatasetCreate, DatasetRead, DatasetUpdate, DatasetDelete,
    ChatCreate, ChatRead, ChatDelete,
    SettingsRead, SettingsUpdate, SystemAdmin]

  /** The resource part of a permission's value. */
  function Resource(p: Permission): string {
    match p
    case UserCreate | UserRead | UserUpdate | UserDelete => "user"
    case AgentCreate | AgentRead | AgentUpdate | AgentDelete | AgentDeploy => "agent"
    case KnowledgeCreate | KnowledgeRead | KnowledgeUpdate | KnowledgeDelete | KnowledgePublish => "knowledge"
    case ModelCreate | ModelRead | ModelUpdate | ModelDelete => "model"
    case DatasetCreate | DatasetRead | DatasetUpdate | DatasetDelete => "dataset"
    case ChatCreate | ChatRead | ChatDelete => "chat"
    case SettingsRead | SettingsUpdate => "settings"
    case SystemAdmin => "system"
  }

  /** The action part of a permission's value. */
  function Action(p: Permission): string {
    match p
    case UserCreate | AgentCreate | KnowledgeCreate | ModelCreate | DatasetCreate | ChatCreate => "create"
    case UserRead | AgentRead | KnowledgeRead | ModelRead | DatasetRead | ChatRead | SettingsRead => "read"
    case UserUpdate | AgentUpdate | KnowledgeUpdate | ModelUpdate | DatasetUpdate | SettingsUpdate => "update"
    case UserDelete | AgentDelete | KnowledgeDelete | ModelDelete | DatasetDelete | ChatDelete => "delete"
    case AgentDeploy => "deploy"
    case KnowledgePublish => "publish"
    case SystemAdmin => "admin"
  }

  /** The enum value, `"resource:action"`. */
  function PermValue(p: Permission): string {
    Resource(p) + ":" + Action(p)
  }

  function CountChar(s: string, c: char): nat {
    if s == [] then 0 else (if s[0] == c then 1 else 0) + CountChar(s[1..], c)
  }

  lemma {:induction false} CountCharAppend(a: string, b: string, c: char)
    ensures CountChar(a + b, c) == CountChar(a, c) + CountChar(b, c)
  {
    if a != [] {
      assert (a + b)[1..] == a[1..] + b;
      CountCharAppend(a[1..], b, c);
    } else {
      assert a + b == b;
    }
  }

  lemma {:induction false} CountCharAbsent(s: string, c: char)
    requires c !in s
    ensures CountChar(s, c) == 0
  {
    if s != [] {
      assert s[0] in s;
      assert forall i :: 0 <= i < |s[1..]| ==> s[1..][i] == s[i + 1];
      CountCharAbsent(s[1..], c);
    }
  }

  /** Neither part of a permission's value contains ':'. */
  lemma ColonFree(p: Permission)
    ensures ':' !in Resource(p) && ':' !in Action(p)
  {
  }

  lemma NoColonIn(p: Permission)
    ensures CountChar(Resource(p), ':') == 0 && CountChar(Action(p), ':') == 0
  {
    ColonFree(p);
    CountCharAbsent(Resource(p), ':');
    CountCharAbsent(Action(p), ':');
  }

  /** Two `resource:action` strings whose resources have no ':' are equal
      only when both parts are. */
  lemma SplitAtColon(r1: string, a1: string, r2: string, a2: string)
    requires ':' !in r1 && ':' !in r2
    requires r1 + ":" + a1 == r2 + ":" + a2
    ensures r1 == r2 && a1 == a2
  {
    var s := r1 + ":" + a1;
    assert |r1| == |r2| by {
      assert forall k :: 0 <= k < |r1| ==> s[k] == r1[k];
      assert forall k :: 0 <= k < |r2| ==> s[k] == r2[k];
      assert s[|r1|] == ':' && s[|r2|] == ':';
    }
    assert r1 == s[..|r1|] && r2 == s[..|r2|];
    assert a1 == s[|r1| + 1..] && a2 == s[|r2| + 1..];
  }

  /** Every permission value has the form `resource:action` with exactly one ':'. */
  lemma PermValueShape(p: Permission)
    ensures CountChar(PermValue(p), ':') == 1
    ensures Resource(p) != [] && Action(p) != []
    ensures PermValue(p)[..|Resource(p)|] == Resource(p)
    ensures PermValue(p)[|Resource(p)|] == ':'
    ensures PermValue(p)[|Resource(p)| + 1..] == Action(p)
  {
    NoColonIn(p);
    CountCharAppend(Resource(p) + ":", Action(p), ':');
    CountCharAppend(Resource(p), ":", ':');
  }

  /** Distinct permissions have distinct values. */
  lemma PermValueInjective(p: Permission, q: Permission)
    requires PermValue(p) == PermValue(q)
    ensures p == q
  {
    ColonFree(p);
    ColonFree(q);
    SplitAtColon(Resource(p), Action(p), Resource(q), Action(q));
    PartsDetermine(p, q);
  }

  /** No two permissions share both their resource and their action. */
  lemma PartsDetermine(p: Permission, q: Permission)
    requires Resource(p) == Resource(q) && Action(p) == Action(q)
    ensures p == q
  {
  }

  /** `RoleEnum`, in declaration order. */
  datatype Role = SuperAdmin | Admin | Manager | Editor | Viewer | UserRole

  const AllRoles: seq<Role> := [SuperAdmin, Admin, Manager, Editor, Viewer, UserRole]

  /** The enum value (lower case). */
  function RoleValue(r: Role): string {
    match r
    case SuperAdmin => "super_admin"
    case Admin => "admin"
    case Manager => "manager"
    case Editor => "editor"
    case Viewer => "viewer"
    case UserRole => "user"
  }

  /** The enum member name (upper case). */
  function RoleName(r: Role): string {
    match r
    case SuperAdmin => "SUPER_ADMIN"
    case Admin => "ADMIN"
    case Manager => "MANAGER"
    case Editor => "EDITOR"
    case Viewer => "VIEWER"
    case UserRole => "USER"
  }

  /** `RoleEnum(s)`: lookup by value; `None` is the ValueError. */
  function ParseRole(s: string): (r: Option<Role>)
    ensures r.Some? ==> RoleValue(r.value) == s
    ensures r.None? ==> forall role: Role :: RoleValue(role) != s
  {
    if s == "super_admin" then Some(SuperAdmin)
    else if s == "admin" then Some(Admin)
    else if s == "manager" then Some(Manager)
    else if s == "editor" then Some(Editor)
    else if s == "viewer" then Some(Viewer)
    else if s == "user" then Some(UserRole)
    else None
  }

  /** Parsing a role's value gives the role back. */
  lemma ParseRoleValue(r: Role)
    ensures ParseRole(RoleValue(r)) == Some(r)
  {
  }

  /** No role's value is written in upper case, so upper-case names never parse. */
  lemma UpperCaseNamesDoNotParse(r: Role)
    ensures ParseRole(RoleName(r)) == None
  {
  }

  /** `ROLE_PERMISSIONS[role]` */
  function RolePermissions(r: Role): seq<Permission> {
    match r
    case SuperAdmin => AllPermissions
    case Admin => [
      UserCreate, UserRead, UserUpdate, UserDelete,
      AgentCreate, AgentRead, AgentUpdate, AgentDelete, AgentDeploy,
      KnowledgeCreate, KnowledgeRead, KnowledgeUpdate, KnowledgeDelete, KnowledgePublish,
      ModelRead, ModelUpdate, DatasetRead, DatasetUpdate, ChatRead, SettingsRead, SettingsUpdate]
    case Manager => [
      UserRead, AgentCreate, AgentRead, AgentUpdate,
      KnowledgeCreate, KnowledgeRead, KnowledgeUpdate, KnowledgePublish,
      ModelRead, DatasetRead, ChatRead, SettingsRead]
    case Editor => [
      AgentRead, KnowledgeCreate, KnowledgeRead, KnowledgeUpdate,
      ModelRead, DatasetRead, ChatCreate, ChatRead]
    case Viewer => [AgentRead, KnowledgeRead, ModelRead, DatasetRead, ChatRead, SettingsRead]
    case UserRole => [ChatCreate, ChatRead, KnowledgeRead]
  }

  /** `ROLE_PERMISSIONS.get(key, [])`. Because `RoleEnum` is a `str` enum, a
      plain string equal to a role's value finds that role's entry. */
  function PermissionsFor(key: string): (ps: seq<Permission>)
    ensures ParseRole(key).Some? ==> ps == RolePermissions(ParseRole(key).value)
    ensures ParseRole(key).None? ==> ps == []
  {
    match ParseRole(key)
    case Some(r) => RolePermissions(r)
    case None => []
  }

  /** `has_permission` */
  function HasPermission(key: string, p: Permission): (r: bool)
    ensures r <==> ParseRole(key).Some? && p in RolePermissions(ParseRole(key).value)
  {
    p in PermissionsFor(key)
  }

  /** `has_permission` holds exactly when the key is the value of a role
      whose list holds the permission. */
  lemma HasPermissionIff(key: string, p: Permission)
    ensures HasPermission(key, p) <==> exists role: Role :: RoleValue(role) == key && p in RolePermissions(role)
  {
    if HasPermission(key, p) {
      assert RoleValue(ParseRole(key).value) == key;
    }
    if exists role: Role :: RoleValue(role) == key && p in RolePermissions(role) {
      var role: Role :| RoleValue(role) == key && p in RolePermissions(role);
      ParseRoleValue(role);
    }
  }

  /** `has_any_permission` */
  function HasAnyPermission(key: string, ps: seq<Permission>): (r: bool)
    ensures r <==> exists i :: 0 <= i < |ps| && HasPermission(key, ps[i])
  {
    if ps == [] then false
    else HasPermission(key, ps[0]) || HasAnyPermission(key, ps[1..])
  }

  /** `has_all_permissions` */
  function HasAllPermissions(key: string, ps: seq<Permission>): (r: bool)
    ensures r <==> forall i :: 0 <= i < |ps| ==> HasPermission(key, ps[i])
  {
    if ps == [] then true
    else HasPermission(key, ps[0]) && HasAllPermissions(key, ps[1..])
  }

  /** For a role value, `has_permission` is membership in that role's list. */
  lemma HasPermissionOfRole(r: Role, p: Permission)
    ensures HasPermission(RoleValue(r), p) <==> p in RolePermissions(r)
  {
    ParseRoleValue(r);
  }

  /** SUPER_ADMIN's list is the whole catalogue. */
  lemma SuperAdminHasEverything(p: Permission)
    ensures p in RolePermissions(SuperAdmin)
    ensures HasPermission("super_admin", p)
  {
  }

  /** No role other than SUPER_ADMIN holds `system:admin`. */
  lemma OnlySuperAdminIsSystemAdmin(r: Role)
    ensures SystemAdmin in RolePermissions(r) <==> r == SuperAdmin
  {
  }

  /** A key that is not a role value has no permissions at all. */
  lemma UnknownKeyHasNothing(key: string, ps: seq<Permission>)
    requires ParseRole(key).None?
    ensures !HasAnyPermission(key, ps)
    ensures HasAllPermissions(key, ps) <==> ps == []
  {
    if ps != [] {
      assert !HasPermission(key, ps[0]);
    }
  }

  /** The three tests agree on one permission. */
  lemma SingletonAgreement(key: string, p: Permission)
    ensures HasPermission(key, p) == HasAnyPermission(key, [p]) == HasAllPermissions(key, [p])
  {
    assert [p][0] == p;
  }

  /** `all` implies `any` on a non-empty list; `any` is false and `all` true on
      the empty list. */
  lemma AllImpliesAny(key: string, ps: seq<Permission>)
    ensures HasAllPermissions(key, ps) && ps != [] ==> HasAnyPermission(key, ps)
    ensures !HasAnyPermission(key, []) && HasAllPermissions(key, [])
  {
    if HasAllPermissions(key, ps) && ps != [] {
      assert HasPermission(key, ps[0]);
    }
  }

  /** The checks of the RBAC reference script: a role, a permission and
      the expected answer of `has_permission`. */
  const ReferenceCases: seq<(Role, Permission, bool)> := [
    (SuperAdmin, AgentRead, true),
    (UserRole, SystemAdmin, false),
    (Manager, AgentCreate, true),
    (Viewer, KnowledgeDelete, false)]

  /** Each check of the reference script gets the expected answer. */
  lemma ReferenceExamples(i: nat)
    requires i < |ReferenceCases|
    ensures var (r, p, expected) := ReferenceCases[i];
      HasPermission(RoleValue(r), p) == expected
  {
    if i == 0 {
      HeldByRole(SuperAdmin, AgentRead, 5);
    } else if i == 1 {
      NotHeldByRole(UserRole, SystemAdmin);
    } else if i == 2 {
      HeldByRole(Manager, AgentCreate, 1);
    } else {
      NotHeldByRole(Viewer, KnowledgeDelete);
    }
  }

  lemma HeldByRole(r: Role, p: Permission, i: nat)
    requires i < |RolePermissions(r)| && RolePermissions(r)[i] == p
    ensures HasPermission(RoleValue(r), p)
  {
    HasPermissionOfRole(r, p);
  }

  lemma NotHeldByRole(r: Role, p: Permission)
    requires p !in RolePermissions(r)
    ensures !HasPermission(RoleValue(r), p)
  {
    HasPermissionOfRole(r, p);
  }

  /** The sizes of the six role lists: 28, 21, 12, 8, 6, 3. */
  lemma RoleSizes()
    ensures |RolePermissions(SuperAdmin)| == 28 && |RolePermissions(Admin)| == 21
    ensures |RolePermissions(Manager)| == 12 && |RolePermissions(Editor)| == 8
    ensures |RolePermissions(Viewer)| == 6 && |RolePermissions(UserRole)| == 3
  {
  }
}
