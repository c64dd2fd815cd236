/** api/routes/admin_roles.py: the admin endpoints over the static RBAC table
    of core/rbac.py. Each endpoint is gated on a permission of the caller's
    role key, lists roles and permissions, or reads and writes the role stored
    on a user row. The gate is modelled as written, where the key is the Role
    object itself and nobody passes, and with the key read through the role's
    name, which is the gate the endpoints below use. */
module AdminRolesStatic {

  import opened Common
  import opened PyText
  import opened Rbac
  import UserModel

  /** What `current_user.role or "USER"` hands to `has_permission` as written:
      the user's Role object when there is one (an ORM object is always
      truthy), otherwise the string "USER". */
  datatype GateArg = RoleObject(row: UserModel.RoleRef) | Text(s: string)

  function GateArgAsWritten(role: Option<UserModel.RoleRef>): GateArg {
    if role.Some? then RoleObject(role.value) else Text("USER")
  }

  /** `ROLE_PERMISSIONS.get(key, [])` on what the gate passes: the keys are
      `RoleEnum` members, which as a `str` enum equal their value strings, while
      a Role object equals none of them. */
  function PermissionsForArg(a: GateArg): (ps: seq<Permission>)
    ensures a.RoleObject? ==> ps == []
    ensures a.Text? ==> ps == PermissionsFor(a.s)
  {
    match a
    case RoleObject(_) => []
    case Text(s) => PermissionsFor(s)
  }

  /** The permission gate at the head of every endpoint, as written. */
  predicate AllowedAsWritten(role: Option<UserModel.RoleRef>, p: Permission) {
    p in PermissionsForArg(GateArgAsWritten(role))
  }

  /** As written, every gate of the file refuses every caller: a Role object
      finds no permission list, and neither does the fallback "USER", which is
      a member name and not a role value. So every endpoint answers 403. */
  lemma AsWrittenGatesRefuseEveryone(role: Option<UserModel.RoleRef>)
    ensures forall p :: !AllowedAsWritten(role, p)
  {
    if role.None? {
      UnknownKeyHasNothing("USER", []);
    }
  }

  /** The name of a role row, the field the corrected endpoints read. */
  function RoleNameOf(role: Option<UserModel.RoleRef>): Option<string> {
    if role.Some? then Some(role.value.name) else None
  }

  /** The key as evidently intended, `role.name if role else "USER"`, taken
      from the role's name (role rows are named by role values). */
  function GateKey(name: Option<string>): string {
    if name.Some? then name.value else "USER"
  }

  /** The permission gate with the caller's role read through its name. */
  predicate Allowed(role: Option<UserModel.RoleRef>, p: Permission) {
    HasPermission(GateKey(RoleNameOf(role)), p)
  }

  /** With the corrected key, the fallback "USER" still parses as no role, so
      a caller without a role is refused by every gate, including those a
      plain `user` would pass. */
  lemma RoleLessCallerIsRefused(p: Permission)
    ensures !Allowed(None, p)
    ensures HasPermission("user", ChatRead) && !Allowed(None, ChatRead)
  {
    HasPermissionOfRole(UserRole, ChatRead);
  }

  /** With the corrected key the `system:admin` gate admits exactly callers
      whose role row is named `super_admin`. */
  lemma SystemAdminGateIff(role: Option<UserModel.RoleRef>)
    ensures Allowed(role, SystemAdmin) <==> role.Some? && role.value.name == "super_admin"
  {
    var key := GateKey(RoleNameOf(role));
    if Allowed(role, SystemAdmin) {
      var r := ParseRole(key).value;
      OnlySuperAdminIsSystemAdmin(r);
      assert key == "super_admin";
    }
    if role.Some? && role.value.name == "super_admin" {
      HasPermissionOfRole(SuperAdmin, SystemAdmin);
      assert RolePermissions(SuperAdmin)[27] == SystemAdmin;
    }
  }

  /** `[p.value for p in permissions]` */
  function Values(ps: seq<Permission>): (vs: seq<string>)
    ensures |vs| == |ps|
    ensures forall i :: 0 <= i < |ps| ==> vs[i] == PermValue(ps[i])
  {
    seq(|ps|, i requires 0 <= i < |ps| => PermValue(ps[i]))
  }

  /** `name.replace("_", " ").title()` */
  function DisplayName(name: string): string {
    Title(ReplaceChar(name, '_', ' '))
  }

  /** A display name keeps the name's length and has no underscore left. */
  lemma DisplayNameShape(name: string)
    ensures |DisplayName(name)| == |name|
    ensures '_' !in DisplayName(name)
  {
    var t := ReplaceChar(name, '_', ' ');
    TitleCases(t, false);
  }

  /** The words of a display name are capitalised: a letter is upper-case
      exactly when it starts a word of the name (it comes first, or after a
      character that is not a letter, an underscore among them) and is
      otherwise the same letter lower-cased; every other character is kept,
      an underscore becoming a space. */
  lemma DisplayNameWords(name: string, i: nat)
    requires i < |name|
    ensures |DisplayName(name)| == |name|
    ensures IsAsciiLetter(name[i]) ==>
      IsAsciiLetter(DisplayName(name)[i])
      && LowerChar(DisplayName(name)[i]) == LowerChar(name[i])
      && ('A' <= DisplayName(name)[i] <= 'Z' <==> i == 0 || !IsAsciiLetter(name[i - 1]))
    ensures !IsAsciiLetter(name[i]) ==> DisplayName(name)[i] == (if name[i] == '_' then ' ' else name[i])
  {
    var t := ReplaceChar(name, '_', ' ');
    assert DisplayName(name) == Title(t);
    if i > 0 {
      assert IsAsciiLetter(t[i - 1]) <==> IsAsciiLetter(name[i - 1]);
    }
  }

  lemma {:induction false} TitleCases(s: string, afterLetter: bool)
    ensures forall i :: 0 <= i < |s| ==>
      TitleFrom(s, afterLetter)[i] == LowerChar(s[i]) || TitleFrom(s, afterLetter)[i] == UpperChar(s[i])
    ensures '_' !in s ==> '_' !in TitleFrom(s, afterLetter)
  {
    if s != [] {
      TitleCases(s[1..], IsAsciiLetter(s[0]));
      var r := TitleFrom(s, afterLetter);
      assert r[1..] == TitleFrom(s[1..], IsAsciiLetter(s[0]));
      assert forall i :: 1 <= i < |s| ==> r[i] == r[1..][i - 1] && s[i] == s[1..][i - 1];
    }
  }

  /** The display name of SUPER_ADMIN: the underscore becomes a space and
      each word is capitalised. */
  lemma SuperAdminDisplayName(name: string)
    requires name == RoleName(SuperAdmin)
    ensures DisplayName(name) == "Super Admin"
  {
    var t := ReplaceChar(name, '_', ' ');
    assert t == "SUPER ADMIN";
    TitleOfSuperAdmin("SUPER ADMIN");
  }

  lemma TitleOfSuperAdmin(t: string)
    requires t == "SUPER ADMIN"
    ensures Title(t) == "Super Admin"
  {
    TitleChar(t, 1, 'S', 'U');
    TitleChar(t, 2, 'U', 'P');
    TitleChar(t, 3, 'P', 'E');
    TitleChar(t, 4, 'E', 'R');
    TitleChar(t, 5, 'R', ' ');
    TitleChar(t, 6, ' ', 'A');
    TitleChar(t, 7, 'A', 'D');
    TitleChar(t, 8, 'D', 'M');
    TitleChar(t, 9, 'M', 'I');
    TitleChar(t, 10, 'I', 'N');
  }

  lemma TitleChar(t: string, i: nat, prev: char, c: char)
    requires 0 < i < |t| && t[i - 1] == prev && t[i] == c
    ensures Title(t)[i] == if IsAsciiLetter(prev) then LowerChar(c) else UpperChar(c)
  {
  }

  /** `get_role_description`: the table covers exactly the six role values. */
  function RoleDescription(key: string): (d: string)
    ensures d == "" <==> ParseRole(key).None?
  {
    match ParseRole(key)
    case Some(SuperAdmin) => "Full system access with all permissions"
    case Some(Admin) => "System administration and management"
    case Some(Manager) => "Team and content management"
    case Some(Editor) => "Content creation and editing"
    case Some(Viewer) => "Read-only access to system resources"
    case Some(UserRole) => "Basic user access"
    case None => ""
  }

  datatype RoleInfo = RoleInfo(id: string, name: string, displayName: string,
                               permissions: seq<string>, permissionCount: nat)

  /** One entry of the role listing. */
  function RoleEntry(r: Role): (e: RoleInfo)
    ensures e.id == RoleValue(r) && e.name == RoleName(r) && e.displayName == DisplayName(RoleName(r))
    ensures e.permissions == Values(RolePermissions(r)) && e.permissionCount == |e.permissions|
  {
    var ps := Values(RolePermissions(r));
    RoleInfo(RoleValue(r), RoleName(r), DisplayName(RoleName(r)), ps, |ps|)
  }

  /** `list_roles`: 403 without `system:admin`; otherwise one entry per role, in
      enum order, each listing that role's permission values and their count. */
  method ListRoles(caller: Option<UserModel.RoleRef>) returns (res: HttpResult<seq<RoleInfo>>)
    ensures !Allowed(caller, SystemAdmin) ==> res == HttpError(403, "Insufficient permissions to list roles")
    ensures Allowed(caller, SystemAdmin) ==> res.Ok? && |res.value| == |AllRoles|
    ensures res.Ok? ==> forall i :: 0 <= i < |res.value| ==>
      res.value[i].id == RoleValue(AllRoles[i]) && res.value[i].name == RoleName(AllRoles[i])
      && res.value[i].displayName == DisplayName(RoleName(AllRoles[i]))
      && res.value[i].permissions == Values(RolePermissions(AllRoles[i]))
      && res.value[i].permissionCount == |res.value[i].permissions|
  {
    if !Allowed(caller, SystemAdmin) {
      return HttpError(403, "Insufficient permissions to list roles");
    }
    var data := RoleEntries(AllRoles, RoleEntry);
    return Ok(data);
  }

  /** The loop of `list_roles`: one entry per role, in order. */
  method RoleEntries(roles: seq<Role>, entry: Role -> RoleInfo) returns (data: seq<RoleInfo>)
    ensures |data| == |roles|
    ensures forall k :: 0 <= k < |roles| ==> data[k] == entry(roles[k])
  {
    data := [];
    for i := 0 to |roles|
      invariant |data| == i
      invariant forall k :: 0 <= k < i ==> data[k] == entry(roles[k])
    {
      data := data + [entry(roles[i])];
    }
  }

  datatype RoleDetails = RoleDetails(id: string, name: string, displayName: string,
                                     permissions: seq<string>, description: string)

  /** `get_role_details`: 403 without `system:admin`, 404 for a string that is
      no role value, otherwise that role's permissions and description. */
  function GetRoleDetails(caller: Option<UserModel.RoleRef>, roleId: string): (res: HttpResult<RoleDetails>)
    ensures res.Ok? <==> Allowed(caller, SystemAdmin) && ParseRole(roleId).Some?
    ensures !Allowed(caller, SystemAdmin) ==> res == HttpError(403, "Insufficient permissions")
    ensures Allowed(caller, SystemAdmin) && ParseRole(roleId).None?
      ==> res == HttpError(404, "Role '" + roleId + "' not found")
    ensures res.Ok? ==> (res.value.id == roleId && res.value.description != ""
      && res.value.name == RoleName(ParseRole(roleId).value)
      && res.value.displayName == DisplayName(res.value.name)
      && res.value.permissions == Values(RolePermissions(ParseRole(roleId).value)))
  {
    if !Allowed(caller, SystemAdmin) then HttpError(403, "Insufficient permissions")
    else match ParseRole(roleId)
      case None => HttpError(404, "Role '" + roleId + "' not found")
      case Some(r) =>
        var ps := Values(RolePermissions(r));
        Ok(RoleDetails(RoleValue(r), RoleName(r), DisplayName(RoleName(r)), ps, RoleDescription(roleId)))
  }

  /** `perm.value.split(":")[0]` */
  function ResourceOfValue(v: string): string {
    Split(v, ":")[0]
  }

  /** `perm.value.split(":")[1] if ":" in perm.value else ""` */
  function ActionOfValue(v: string): string {
    if Contains(v, ":") then
      var parts := Split(v, ":");
      assert |parts| >= 2;
      parts[1]
    else ""
  }

  /** Splitting a permission value gives back its resource and its action. */
  lemma ValueParts(p: Permission)
    ensures ResourceOfValue(PermValue(p)) == Resource(p)
    ensures ActionOfValue(PermValue(p)) == Action(p)
  {
    assert ':' !in Resource(p) && ':' !in Action(p);
    SplitOnce(Resource(p), Action(p), ':');
    assert PermValue(p) == Resource(p) + [':'] + Action(p);
    assert OccursAt(PermValue(p), ":", |Resource(p)|);
  }

  datatype PermissionEntry = PermissionEntry(id: string, name: string, displayName: string,
                                             resource: string, action: string)

  /** The name of a `PermissionEnum` member: its value upper-cased with `_` for `:`. */
  function PermName(p: Permission): string {
    Upper(Resource(p)) + "_" + Upper(Action(p))
  }

  /** The dict entry `list_permissions` appends for one permission. */
  function EntryOf(p: Permission): (e: PermissionEntry)
    ensures e.id == PermValue(p)
  {
    var resource := ResourceOfValue(PermValue(p));
    var action := ActionOfValue(PermValue(p));
    PermissionEntry(PermValue(p), PermName(p), resource + ":" + action, resource, action)
  }

  /** The eight groups `list_permissions` starts with. */
  const GroupNames: set<string> := {"user", "agent", "knowledge", "model", "dataset", "chat", "settings", "system"}

  function EmptyGroups(): (g: map<string, seq<PermissionEntry>>)
    ensures g.Keys == GroupNames
  {
    map name | name in GroupNames :: []
  }

  /** The entries `entry(p)` of the permissions `p` of `ps` with `key(p) == group`, in order. */
  function Grouped(ps: seq<Permission>, group: string, key: Permission -> string,
                   entry: Permission -> PermissionEntry): seq<PermissionEntry>
  {
    if ps == [] then []
    else
      var init := ps[..|ps| - 1];
      var last := ps[|ps| - 1];
      Grouped(init, group, key, entry) + (if key(last) == group then [entry(last)] else [])
  }

  /** `perm.value.split(":")[0]` of a permission. */
  function ResourceKey(p: Permission): string {
    ResourceOfValue(PermValue(p))
  }

  /** The entries of `ps` whose value splits to `resource`, in order. */
  function EntriesOf(ps: seq<Permission>, resource: string): seq<PermissionEntry> {
    Grouped(ps, resource, ResourceKey, EntryOf)
  }

  lemma EntriesOfSnoc(ps: seq<Permission>, i: nat, resource: string)
    requires i < |ps|
    ensures EntriesOf(ps[..i + 1], resource)
      == EntriesOf(ps[..i], resource) + (if ResourceOfValue(PermValue(ps[i])) == resource then [EntryOf(ps[i])] else [])
  {
    assert ps[..i + 1][..i] == ps[..i];
  }

  /** The loop of `list_permissions`: each entry is appended to the group of
      its resource when that group is one of the eight, and dropped otherwise. */
  method GroupCatalogue(ps: seq<Permission>) returns (groups: map<string, seq<PermissionEntry>>)
    ensures groups.Keys == GroupNames
    ensures forall g :: g in groups ==> groups[g] == EntriesOf(ps, g)
  {
    groups := EmptyGroups();
    for i := 0 to |ps|
      invariant groups.Keys == GroupNames
      invariant forall g :: g in groups ==> groups[g] == EntriesOf(ps[..i], g)
    {
      groups := AddEntry(ps, i, groups);
    }
    assert ps[..|ps|] == ps;
  }

  /** The body of the `list_permissions` loop for entry `i`. */
  method AddEntry(ps: seq<Permission>, i: nat, groups: map<string, seq<PermissionEntry>>)
    returns (groups': map<string, seq<PermissionEntry>>)
    requires i < |ps|
    requires groups.Keys == GroupNames
    requires forall g :: g in groups ==> groups[g] == EntriesOf(ps[..i], g)
    ensures groups'.Keys == GroupNames
    ensures forall g :: g in groups' ==> groups'[g] == EntriesOf(ps[..i + 1], g)
  {
    var resource := ResourceOfValue(PermValue(ps[i]));
    forall g | g in groups
      ensures EntriesOf(ps[..i + 1], g)
        == EntriesOf(ps[..i], g) + (if resource == g then [EntryOf(ps[i])] else [])
    {
      EntriesOfSnoc(ps, i, g);
    }
    groups' := groups;
    if resource in groups {
      groups' := groups[resource := groups[resource] + [EntryOf(ps[i])]];
    }
  }

  datatype PermissionListing = PermissionListing(groups: map<string, seq<PermissionEntry>>, total: nat)

  /** `list_permissions`: 403 without `system:admin`; otherwise the eight fixed
      groups, each holding the catalogue's entries of that resource in enum
      order, and the size of the whole catalogue as total. */
  method ListPermissions(caller: Option<UserModel.RoleRef>) returns (res: HttpResult<PermissionListing>)
    ensures !Allowed(caller, SystemAdmin) ==> res == HttpError(403, "Insufficient permissions")
    ensures Allowed(caller, SystemAdmin) ==> res.Ok?
    ensures res.Ok? ==> res.value.groups.Keys == GroupNames && res.value.total == |AllPermissions|
    ensures res.Ok? ==> forall g :: g in res.value.groups ==> res.value.groups[g] == EntriesOf(AllPermissions, g)
  {
    if !Allowed(caller, SystemAdmin) {
      return HttpError(403, "Insufficient permissions");
    }
    var groups := GroupCatalogue(AllPermissions);
    return Ok(PermissionListing(groups, |AllPermissions|));
  }

  /** Membership in a group: exactly the entries of permissions of that resource. */
  lemma EntriesOfMember(ps: seq<Permission>, resource: string, p: Permission)
    ensures p in ps && ResourceOfValue(PermValue(p)) == resource ==> EntryOf(p) in EntriesOf(ps, resource)
    ensures EntryOf(p) in EntriesOf(ps, resource) ==> p in ps && ResourceOfValue(PermValue(p)) == resource
  {
    if p in ps && ResourceKey(p) == resource {
      GroupedListed(ps, resource, ResourceKey, EntryOf, p);
    }
    if EntryOf(p) in EntriesOf(ps, resource) {
      EntryOfInjective();
      GroupedOnlyListed(ps, resource, ResourceKey, EntryOf, p);
    }
  }

  /** Distinct permissions have distinct entries. */
  lemma EntryOfInjective()
    ensures forall a, b :: EntryOf(a) == EntryOf(b) ==> a == b
  {
    forall a, b | EntryOf(a) == EntryOf(b)
      ensures a == b
    {
      PermValueInjective(a, b);
    }
  }

  lemma {:induction false} GroupedListed(ps: seq<Permission>, group: string, key: Permission -> string,
                                         entry: Permission -> PermissionEntry, p: Permission)
    requires p in ps && key(p) == group
    ensures entry(p) in Grouped(ps, group, key, entry)
  {
    var init := ps[..|ps| - 1];
    var last := ps[|ps| - 1];
    if p != last {
      assert p in init by {
        assert ps == init + [last];
      }
      GroupedListed(init, group, key, entry, p);
    }
  }

  lemma {:induction false} GroupedOnlyListed(ps: seq<Permission>, group: string, key: Permission -> string,
                                             entry: Permission -> PermissionEntry, p: Permission)
    requires forall a, b :: entry(a) == entry(b) ==> a == b
    requires entry(p) in Grouped(ps, group, key, entry)
    ensures p in ps && key(p) == group
  {
    var init := ps[..|ps| - 1];
    var last := ps[|ps| - 1];
    assert ps == init + [last];
    if entry(p) in Grouped(init, group, key, entry) {
      GroupedOnlyListed(init, group, key, entry, p);
    }
  }

  /** Every resource has one of the eight groups. */
  lemma ResourceGrouped(p: Permission)
    ensures Resource(p) in GroupNames
  {
    var r := Resource(p);
    assert r == "user" || r == "agent" || r == "knowledge" || r == "model"
      || r == "dataset" || r == "chat" || r == "settings" || r == "system";
  }

  /** Every permission of the catalogue is listed in the group of its own
      resource and in no other group, with its resource and action split off. */
  lemma EachPermissionListedOnce(p: Permission)
    ensures Resource(p) in GroupNames
    ensures EntryOf(p) in EntriesOf(AllPermissions, Resource(p))
    ensures forall g :: g != Resource(p) ==> EntryOf(p) !in EntriesOf(AllPermissions, g)
    ensures EntryOf(p).resource == Resource(p) && EntryOf(p).action == Action(p)
  {
    ResourceGrouped(p);
    ValueParts(p);
    EntriesOfMember(AllPermissions, Resource(p), p);
    forall g | g != Resource(p)
      ensures EntryOf(p) !in EntriesOf(AllPermissions, g)
    {
      EntriesOfMember(AllPermissions, g, p);
    }
  }

  /** `role_data.get("role", "USER").upper()` validated by `RoleEnum(...)`, as
      written: the role string to store, or `None` for the 400. */
  function AssignedRoleAsWritten(requested: Option<string>): Option<string> {
    var newRole := Upper(requested.GetOr("USER"));
    if ParseRole(newRole).Some? then Some(newRole) else None
  }

  /** Role values are lower case, and an upper-cased string holds no lower-case
      letter, so the validation as written refuses every request. */
  lemma AsWrittenRefusesEveryRole(requested: Option<string>)
    ensures AssignedRoleAsWritten(requested) == None
  {
    var newRole := Upper(requested.GetOr("USER"));
    forall role: Role
      ensures RoleValue(role) != newRole
    {
      if |newRole| == |RoleValue(role)| {
        assert 'a' <= RoleValue(role)[0] <= 'z';
      }
    }
  }

  /** The validation with the intended case: the requested role is lower-cased
      before `RoleEnum(...)`, and the role value is stored. */
  function AssignedRole(requested: Option<string>): (r: Option<string>)
    ensures r.Some? ==> ParseRole(r.value).Some?
  {
    match ParseRole(Lower(requested.GetOr("user")))
    case Some(role) => ParseRoleValue(role); Some(RoleValue(role))
    case None => None
  }

  /** The corrected validation accepts every role by member name or by value,
      and defaults to `user`. */
  lemma AssignedRoleAccepts(r: Role)
    ensures AssignedRole(Some(RoleName(r))) == Some(RoleValue(r))
    ensures AssignedRole(Some(RoleValue(r))) == Some(RoleValue(r))
    ensures AssignedRole(None) == Some("user")
  {
    assert Lower(RoleName(r)) == RoleValue(r);
    assert Lower(RoleValue(r)) == RoleValue(r);
    assert Lower("user") == "user";
  }

  /** A user row as the endpoints read it; `role` is the name of the user's
      role row, `None` for a user without one. */
  datatype UserRecord = UserRecord(email: string, role: Option<string>)

  datatype RoleStats = RoleStats(totalUsers: nat, byRole: seq<(string, nat)>)

  datatype RoleChange = RoleChange(userId: string, email: string, oldRole: Option<string>, newRole: string)

  datatype UserRoleView = UserRoleView(userId: string, email: string, role: string, permissions: seq<string>)

  datatype UserPermissionsView = UserPermissionsView(
    userId: string, email: string, role: string, allPermissions: seq<string>,
    grouped: map<string, seq<string>>, totalPermissions: nat)

  /** The values of `ps` whose resource part is `resource`, in order. */
  function ValuesOfResource(ps: seq<Permission>, resource: string): seq<string> {
    if ps == [] then []
    else
      var init := ps[..|ps| - 1];
      var last := ps[|ps| - 1];
      ValuesOfResource(init, resource) + (if ResourceOfValue(PermValue(last)) == resource then [PermValue(last)] else [])
  }

  /** The resource parts that occur in `ps`. */
  function ResourcesIn(ps: seq<Permission>): set<string> {
    if ps == [] then {}
    else ResourcesIn(ps[..|ps| - 1]) + {ResourceOfValue(PermValue(ps[|ps| - 1]))}
  }

  lemma {:induction false} ValuesNonEmptyIff(ps: seq<Permission>, resource: string)
    ensures ValuesOfResource(ps, resource) != [] <==> resource in ResourcesIn(ps)
  {
    if ps != [] {
      ValuesNonEmptyIff(ps[..|ps| - 1], resource);
    }
  }

  /** One step of the `grouped_perms` loop. */
  lemma GroupValuesStep(ps: seq<Permission>, i: nat, g: map<string, seq<string>>)
    requires i < |ps|
    requires g.Keys == ResourcesIn(ps[..i])
    requires forall r :: r in g ==> g[r] == ValuesOfResource(ps[..i], r)
    ensures var key := ResourceOfValue(PermValue(ps[i]));
      var g' := g[key := (if key in g then g[key] else []) + [PermValue(ps[i])]];
      g'.Keys == ResourcesIn(ps[..i + 1]) && forall r :: r in g' ==> g'[r] == ValuesOfResource(ps[..i + 1], r)
  {
    var key := ResourceOfValue(PermValue(ps[i]));
    var g' := g[key := (if key in g then g[key] else []) + [PermValue(ps[i])]];
    ValuesPrefixStep(ps, i);
    forall r | r in g'
      ensures g'[r] == ValuesOfResource(ps[..i + 1], r)
    {
      if r == key && key !in g {
        ValuesNonEmptyIff(ps[..i], key);
      }
    }
  }

  /** The prefix one permission longer adds that permission's value to its
      resource's group. */
  lemma ValuesPrefixStep(ps: seq<Permission>, i: nat)
    requires i < |ps|
    ensures var key := ResourceOfValue(PermValue(ps[i]));
      ResourcesIn(ps[..i + 1]) == ResourcesIn(ps[..i]) + {key}
      && (forall r :: ValuesOfResource(ps[..i + 1], r)
            == ValuesOfResource(ps[..i], r) + (if key == r then [PermValue(ps[i])] else []))
  {
    assert ps[..i + 1][..i] == ps[..i];
  }

  /** The grouping loop of `get_user_permissions`: a key per resource that
      occurs, created on first sight, holding that resource's values in order. */
  method GroupValues(ps: seq<Permission>) returns (grouped: map<string, seq<string>>)
    ensures grouped.Keys == ResourcesIn(ps)
    ensures forall r :: r in grouped ==> grouped[r] == ValuesOfResource(ps, r)
  {
    grouped := map[];
    for i := 0 to |ps|
      invariant grouped.Keys == ResourcesIn(ps[..i])
      invariant forall r :: r in grouped ==> grouped[r] == ValuesOfResource(ps[..i], r)
    {
      GroupValuesStep(ps, i, grouped);
      var resource := ResourceOfValue(PermValue(ps[i]));
      if resource !in grouped {
        grouped := grouped[resource := []];
      }
      grouped := grouped[resource := grouped[resource] + [PermValue(ps[i])]];
    }
    assert ps[..|ps|] == ps;
  }

  /** A value is in a resource's group exactly when it is the value of a
      permission of `ps` with that resource; so each value appears in one group. */
  lemma {:induction false} ValuesOfResourceMember(ps: seq<Permission>, resource: string, p: Permission)
    ensures PermValue(p) in ValuesOfResource(ps, resource) <==> p in ps && ResourceOfValue(PermValue(p)) == resource
  {
    if ps != [] {
      var init := ps[..|ps| - 1];
      var last := ps[|ps| - 1];
      ValuesOfResourceMember(init, resource, p);
      InSnoc(ps, p);
      if PermValue(p) == PermValue(last) {
        PermValueInjective(p, last);
      }
    }
  }

  /** The user rows the endpoints read and `assign_user_role` writes, by id. */
  class UserDirectory {
    var users: map<string, UserRecord>

    constructor (users: map<string, UserRecord>)
      ensures this.users == users
    {
      this.users := users;
    }

    /** `get_user_role`: 403 without `user:read`, 404 for an unknown user; the
        role is the stored one or "USER", and `RoleEnum(...)` on a string that
        is no role value raises, which surfaces as a 500. */
    method GetUserRole(caller: Option<UserModel.RoleRef>, userId: string) returns (res: HttpResult<UserRoleView>)
      ensures !Allowed(caller, UserRead) ==> res == HttpError(403, "Insufficient permissions")
      ensures Allowed(caller, UserRead) && userId !in users ==> res == HttpError(404, "User not found")
      ensures Allowed(caller, UserRead) && userId in users ==>
        var key := GateKey(users[userId].role);
        (ParseRole(key).None? ==> res == HttpError(500, "Internal Server Error"))
        && (ParseRole(key).Some? ==> res == Ok(UserRoleView(userId, users[userId].email, key,
                                                             Values(RolePermissions(ParseRole(key).value)))))
    {
      if !Allowed(caller, UserRead) {
        return HttpError(403, "Insufficient permissions");
      }
      if userId !in users {
        return HttpError(404, "User not found");
      }
      var user := users[userId];
      var userRole := GateKey(user.role);
      match ParseRole(userRole) {
        case None =>
          res := HttpError(500, "Internal Server Error");
        case Some(r) =>
          res := Ok(UserRoleView(userId, user.email, userRole, Values(RolePermissions(r))));
      }
    }

    /** `assign_user_role` as written: 403 without `user:update`, 400 when the
        upper-cased role is no role value, 404 for an unknown user, otherwise the
        user's role is replaced. */
    method AssignUserRoleAsWritten(caller: Option<UserModel.RoleRef>, userId: string, requested: Option<string>)
      returns (res: HttpResult<RoleChange>)
      modifies this
      ensures !Allowed(caller, UserUpdate) ==> res == HttpError(403, "Insufficient permissions") && users == old(users)
      ensures Allowed(caller, UserUpdate) && AssignedRoleAsWritten(requested).None? ==>
        res == HttpError(400, "Invalid role: " + Upper(requested.GetOr("USER"))) && users == old(users)
      ensures Allowed(caller, UserUpdate) && AssignedRoleAsWritten(requested).Some? && userId !in old(users) ==>
        res == HttpError(404, "User not found") && users == old(users)
      ensures Allowed(caller, UserUpdate) && AssignedRoleAsWritten(requested).Some? && userId in old(users) ==>
        users == old(users)[userId := old(users)[userId].(role := AssignedRoleAsWritten(requested))]
    {
      if !Allowed(caller, UserUpdate) {
        return HttpError(403, "Insufficient permissions");
      }
      match AssignedRoleAsWritten(requested) {
        case None =>
          res := HttpError(400, "Invalid role: " + Upper(requested.GetOr("USER")));
        case Some(newRole) =>
          if userId !in users {
            return HttpError(404, "User not found");
          }
          var user := users[userId];
          users := users[userId := user.(role := Some(newRole))];
          res := Ok(RoleChange(userId, user.email, user.role, newRole));
      }
    }

    /** `assign_user_role` with the role lower-cased before validation: every
        error leaves the users unchanged, and success stores a role value. */
    method AssignUserRole(caller: Option<UserModel.RoleRef>, userId: string, requested: Option<string>)
      returns (res: HttpResult<RoleChange>)
      modifies this
      ensures !Allowed(caller, UserUpdate) ==> res == HttpError(403, "Insufficient permissions")
      ensures Allowed(caller, UserUpdate) && AssignedRole(requested).None? ==>
        res == HttpError(400, "Invalid role: " + Lower(requested.GetOr("user")))
      ensures Allowed(caller, UserUpdate) && AssignedRole(requested).Some? && userId !in old(users) ==>
        res == HttpError(404, "User not found")
      ensures res.HttpError? ==> users == old(users)
      ensures res.Ok? ==> (userId in old(users) && AssignedRole(requested).Some?
        && users == old(users)[userId := old(users)[userId].(role := AssignedRole(requested))]
        && res.value == RoleChange(userId, old(users)[userId].email, old(users)[userId].role, AssignedRole(requested).value))
    {
      if !Allowed(caller, UserUpdate) {
        return HttpError(403, "Insufficient permissions");
      }
      match AssignedRole(requested) {
        case None =>
          res := HttpError(400, "Invalid role: " + Lower(requested.GetOr("user")));
        case Some(newRole) =>
          if userId !in users {
            return HttpError(404, "User not found");
          }
          var user := users[userId];
          users := users[userId := user.(role := Some(newRole))];
          res := Ok(RoleChange(userId, user.email, user.role, newRole));
      }
    }

    /** `get_role_statistics` without the percentages: 403 without
        `system:admin`, otherwise the number of users and the count per role. */
    method GetRoleStatistics(caller: Option<UserModel.RoleRef>) returns (res: HttpResult<RoleStats>)
      ensures !Allowed(caller, SystemAdmin) ==> res == HttpError(403, "Insufficient permissions")
      ensures Allowed(caller, SystemAdmin) ==> (res.Ok? && res.value.totalUsers == |users|
        && res.value.byRole == RoleStatistics(users, AllRoles)
        && SumCounts(res.value.byRole) <= res.value.totalUsers)
    {
      if !Allowed(caller, SystemAdmin) {
        return HttpError(403, "Insufficient permissions");
      }
      StatisticsAtMostTotal(users);
      res := Ok(RoleStats(|users|, RoleStatistics(users, AllRoles)));
    }

    /** `get_user_permissions`: 403 without `user:read`, 404 for an unknown
        user, 400 when the stored role (or "USER") is no role value; otherwise
        the role's permission values, grouped by resource, and their count. */
    method GetUserPermissions(caller: Option<UserModel.RoleRef>, userId: string) returns (res: HttpResult<UserPermissionsView>)
      ensures !Allowed(caller, UserRead) ==> res == HttpError(403, "Insufficient permissions")
      ensures Allowed(caller, UserRead) && userId !in users ==> res == HttpError(404, "User not found")
      ensures Allowed(caller, UserRead) && userId in users && ParseRole(GateKey(users[userId].role)).None? ==>
        res == HttpError(400, "Invalid role: " + GateKey(users[userId].role))
      ensures res.Ok? <==> Allowed(caller, UserRead) && userId in users && ParseRole(GateKey(users[userId].role)).Some?
      ensures res.Ok? ==>
        var ps := RolePermissions(ParseRole(GateKey(users[userId].role)).value);
        res.value.allPermissions == Values(ps) && res.value.totalPermissions == |ps|
        && res.value.grouped.Keys == ResourcesIn(ps)
        && (forall r :: r in res.value.grouped ==> res.value.grouped[r] == ValuesOfResource(ps, r))
    {
      if !Allowed(caller, UserRead) {
        return HttpError(403, "Insufficient permissions");
      }
      if userId !in users {
        return HttpError(404, "User not found");
      }
      var user := users[userId];
      var userRole := GateKey(user.role);
      match ParseRole(userRole) {
        case None =>
          res := HttpError(400, "Invalid role: " + userRole);
        case Some(r) =>
          var ps := RolePermissions(r);
          var grouped := GroupValues(ps);
          res := Ok(UserPermissionsView(userId, user.email, userRole, Values(ps), grouped, |ps|));
      }
    }
  }

  /** A stored role assigned by the corrected endpoint is always one that
      `get_user_permissions` accepts, while a user with no role is refused
      with 400 "Invalid role: USER". */
  lemma StoredRolesAreReadable(requested: Option<string>)
    ensures AssignedRole(requested).Some? ==> ParseRole(GateKey(AssignedRole(requested))).Some?
    ensures ParseRole(GateKey(None)).None? && GateKey(None) == "USER"
  {
  }

  /** `get_role_statistics` without the percentages: the number of users
      whose stored role is a given role's value. */
  function CountWithRole(users: map<string, UserRecord>, r: Role): nat {
    |WithRole(users, r)|
  }

  function WithRole(users: map<string, UserRecord>, r: Role): set<string> {
    set id | id in users && users[id].role == Some(RoleValue(r))
  }

  /** `by_role`, in enum order, keyed by member name. */
  function RoleStatistics(users: map<string, UserRecord>, roles: seq<Role>): (stats: seq<(string, nat)>)
    ensures |stats| == |roles|
    ensures forall i :: 0 <= i < |roles| ==> stats[i] == (RoleName(roles[i]), CountWithRole(users, roles[i]))
  {
    if roles == [] then []
    else [(RoleName(roles[0]), CountWithRole(users, roles[0]))] + RoleStatistics(users, roles[1..])
  }

  function SumCounts(stats: seq<(string, nat)>): nat {
    if stats == [] then 0 else stats[0].1 + SumCounts(stats[1..])
  }

  /** The users whose stored role is the value of one of `roles`. */
  function WithAnyRole(users: map<string, UserRecord>, roles: seq<Role>): set<string> {
    set id | id in users && exists k :: 0 <= k < |roles| && users[id].role == Some(RoleValue(roles[k]))
  }

  lemma WithAnyRoleCons(users: map<string, UserRecord>, roles: seq<Role>)
    requires roles != []
    ensures WithAnyRole(users, roles) == WithRole(users, roles[0]) + WithAnyRole(users, roles[1..])
  {
    var rest := roles[1..];
    forall id | id in WithAnyRole(users, roles)
      ensures id in WithRole(users, roles[0]) + WithAnyRole(users, rest)
    {
      var k :| 0 <= k < |roles| && users[id].role == Some(RoleValue(roles[k]));
      if k > 0 {
        assert rest[k - 1] == roles[k];
      }
    }
    forall id | id in WithAnyRole(users, rest)
      ensures id in WithAnyRole(users, roles)
    {
      var k :| 0 <= k < |rest| && users[id].role == Some(RoleValue(rest[k]));
      assert roles[k + 1] == rest[k];
    }
  }

  lemma WithRoleDisjoint(users: map<string, UserRecord>, roles: seq<Role>)
    requires roles != []
    requires forall j :: 0 < j < |roles| ==> roles[0] != roles[j]
    ensures WithRole(users, roles[0]) * WithAnyRole(users, roles[1..]) == {}
  {
    var rest := roles[1..];
    forall id | id in WithRole(users, roles[0]) && id in WithAnyRole(users, rest)
      ensures false
    {
      var k :| 0 <= k < |rest| && users[id].role == Some(RoleValue(rest[k]));
      ParseRoleValue(roles[0]);
      ParseRoleValue(rest[k]);
    }
  }

  /** For distinct roles the counts add up to the number of users holding one
      of them. */
  lemma {:induction false} SumIsUnion(users: map<string, UserRecord>, roles: seq<Role>)
    requires forall i, j :: 0 <= i < j < |roles| ==> roles[i] != roles[j]
    ensures SumCounts(RoleStatistics(users, roles)) == |WithAnyRole(users, roles)|
  {
    if roles != [] {
      var rest := roles[1..];
      SumIsUnion(users, rest);
      assert RoleStatistics(users, roles)[1..] == RoleStatistics(users, rest);
      WithAnyRoleCons(users, roles);
      WithRoleDisjoint(users, roles);
    }
  }

  lemma {:induction false} SubsetSize(a: set<string>, b: set<string>)
    requires a <= b
    ensures |a| <= |b|
  {
    if a != {} {
      var x :| x in a;
      SubsetSize(a - {x}, b - {x});
    }
  }

  /** `by_role` never counts more users than `total_users`: a user whose role
      is missing or no role value is counted in no row. */
  lemma StatisticsAtMostTotal(users: map<string, UserRecord>)
    ensures SumCounts(RoleStatistics(users, AllRoles)) <= |users|
  {
    SumIsUnion(users, AllRoles);
    SubsetSize(WithAnyRole(users, AllRoles), users.Keys);
  }
}
