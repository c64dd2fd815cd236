/** api/routes/admin/roles.py: the admin handlers over the role table, the
    permission catalogue and the role_permissions relation. The database is
    the fields of `RoleStore`; each handler is a method whose result is the
    response or the HTTPException it raises. */
module RoleAdmin {

  import opened Common
  import opened UserModel

  /** A `roles` row. */
  datatype RoleRow = RoleRow(name: string, description: Option<string>, isSystem: bool, updatedAt: Option<int>)

  /** A `role_permissions` row. */
  datatype Link = Link(roleId: string, permissionId: string)

  /** The links the handlers add for the requested ids: one per id found in
      the catalogue, in request order; unknown ids are skipped silently. */
  function LinksFor(roleId: string, ids: seq<string>, catalogue: map<string, PermissionRow>): (r: seq<Link>)
    ensures |r| <= |ids|
    ensures forall k :: 0 <= k < |r| ==> r[k].roleId == roleId && r[k].permissionId in catalogue
    ensures forall k :: 0 <= k < |ids| && ids[k] in catalogue ==> Link(roleId, ids[k]) in r
    ensures forall l :: l in r ==> l.permissionId in ids
  {
    if ids == [] then []
    else
      var init := ids[..|ids| - 1];
      var last := ids[|ids| - 1];
      assert forall k :: 0 <= k < |init| ==> init[k] == ids[k];
      LinksFor(roleId, init, catalogue) + (if last in catalogue then [Link(roleId, last)] else [])
  }

  /** `query(RolePermission).filter(role_id == id).delete()` */
  function WithoutRole(links: seq<Link>, roleId: string): (r: seq<Link>)
    ensures forall l :: l in r <==> l in links && l.roleId != roleId
  {
    if links == [] then []
    else (if links[0].roleId == roleId then [] else [links[0]]) + WithoutRole(links[1..], roleId)
  }

  /** Deleting the first row equal to `l`. */
  function RemoveFirst(links: seq<Link>, l: Link): (r: seq<Link>)
    ensures l in links ==> |r| == |links| - 1
    ensures l !in links ==> r == links
    ensures forall x :: x in r ==> x in links
  {
    if links == [] then []
    else if links[0] == l then links[1..]
    else [links[0]] + RemoveFirst(links[1..], l)
  }

  /** Removing an appended pair that was not there before gives the relation back. */
  lemma {:induction false} RemoveAppended(links: seq<Link>, l: Link)
    requires l !in links
    ensures RemoveFirst(links + [l], l) == links
  {
    if links != [] {
      assert (links + [l])[1..] == links[1..] + [l];
      RemoveAppended(links[1..], l);
    }
  }

  /** The permission rows linked to a role, in link order: what
      `role.permissions` yields to `User.has_permission`. */
  function PermissionsOf(links: seq<Link>, catalogue: map<string, PermissionRow>, roleId: string): (r: seq<PermissionRow>)
    ensures |r| <= |links|
  {
    if links == [] then []
    else
      (if links[0].roleId == roleId && links[0].permissionId in catalogue then [catalogue[links[0].permissionId]] else [])
      + PermissionsOf(links[1..], catalogue, roleId)
  }

  lemma {:induction false} PermissionsOfAppend(links: seq<Link>, l: Link, catalogue: map<string, PermissionRow>, roleId: string)
    ensures PermissionsOf(links + [l], catalogue, roleId)
        == PermissionsOf(links, catalogue, roleId) + PermissionsOf([l], catalogue, roleId)
  {
    if links != [] {
      assert (links + [l])[1..] == links[1..] + [l];
      PermissionsOfAppend(links[1..], l, catalogue, roleId);
    } else {
      assert links + [l] == [l];
    }
  }

  /** After a successful `assign_permission`, users of that role hold the
      permission's resource/action pair. */
  lemma AssignGrants(links: seq<Link>, catalogue: map<string, PermissionRow>, roleId: string, permissionId: string)
    requires permissionId in catalogue
    ensures var p := catalogue[permissionId];
      HasPermission(Some(PermissionsOf(links + [Link(roleId, permissionId)], catalogue, roleId)), p.resource, p.action)
  {
    var l := Link(roleId, permissionId);
    PermissionsOfAppend(links, l, catalogue, roleId);
    assert PermissionsOf([l], catalogue, roleId) == [catalogue[permissionId]];
    var all := PermissionsOf(links + [l], catalogue, roleId);
    assert all[|all| - 1] == catalogue[permissionId];
  }

  /** `has_more` of `list_roles`. */
  function HasMore(skip: nat, limit: nat, total: nat): bool {
    skip + limit < total
  }

  /** `query.offset(skip).limit(limit)` */
  function Page<T>(items: seq<T>, skip: nat, limit: nat): (r: seq<T>)
    ensures |r| <= limit
  {
    if skip >= |items| then [] else if skip + limit >= |items| then items[skip..] else items[skip..skip + limit]
  }

  /** `has_more` is set exactly when rows remain after the returned page. */
  lemma HasMoreIffRowsRemain<T>(items: seq<T>, skip: nat, limit: nat)
    requires limit >= 1
    ensures HasMore(skip, limit, |items|) <==> skip + |Page(items, skip, limit)| < |items|
  {
  }

  /** One entry of the grouped permission listing. */
  datatype ListedPermission = ListedPermission(id: string, row: PermissionRow)

  /** The entries of one resource's group, in query order. */
  function OfResource(ps: seq<ListedPermission>, resource: string): (r: seq<ListedPermission>)
    ensures |r| <= |ps|
  {
    if ps == [] then []
    else
      var init := ps[..|ps| - 1];
      var last := ps[|ps| - 1];
      assert forall k :: 0 <= k < |init| ==> init[k] == ps[k];
      OfResource(init, resource) + (if last.row.resource == resource then [last] else [])
  }

  lemma OfResourceSnoc(ps: seq<ListedPermission>, i: nat, resource: string)
    requires i < |ps|
    ensures OfResource(ps[..i + 1], resource)
        == OfResource(ps[..i], resource) + (if ps[i].row.resource == resource then [ps[i]] else [])
  {
    assert ps[..i + 1][..i] == ps[..i];
  }

  /** The resources that occur in a listing. */
  function ResourcesOf(ps: seq<ListedPermission>): set<string>
  {
    if ps == [] then {}
    else
      var init := ps[..|ps| - 1];
      assert forall k :: 0 <= k < |init| ==> init[k] == ps[k];
      ResourcesOf(init) + {ps[|ps| - 1].row.resource}
  }

  /** A resource has a non-empty group exactly when it occurs. */
  lemma {:induction false} GroupNonEmptyIff(ps: seq<ListedPermission>, resource: string)
    ensures OfResource(ps, resource) != [] <==> resource in ResourcesOf(ps)
  {
    if ps != [] {
      GroupNonEmptyIff(ps[..|ps| - 1], resource);
    }
  }

  /** One step of the grouping loop keeps the groups equal to the groups of
      the prefix read so far. */
  lemma GroupStep(ps: seq<ListedPermission>, i: nat, g: map<string, seq<ListedPermission>>)
    requires i < |ps|
    requires g.Keys == ResourcesOf(ps[..i])
    requires forall r :: r in g ==> g[r] == OfResource(ps[..i], r)
    ensures var key := ps[i].row.resource;
      var g' := g[key := (if key in g then g[key] else []) + [ps[i]]];
      g'.Keys == ResourcesOf(ps[..i + 1]) && forall r :: r in g' ==> g'[r] == OfResource(ps[..i + 1], r)
  {
    var key := ps[i].row.resource;
    var g' := g[key := (if key in g then g[key] else []) + [ps[i]]];
    ResourcesOfStep(ps, i);
    forall r | r in g'
      ensures g'[r] == OfResource(ps[..i + 1], r)
    {
      OfResourceSnoc(ps, i, r);
      if r == key && key !in g {
        GroupNonEmptyIff(ps[..i], key);
      }
    }
  }

  lemma ResourcesOfStep(ps: seq<ListedPermission>, i: nat)
    requires i < |ps|
    ensures ResourcesOf(ps[..i + 1]) == ResourcesOf(ps[..i]) + {ps[i].row.resource}
  {
    assert ps[..i + 1][..i] == ps[..i];
  }

  /** The grouping loop of `list_permissions`: one group per resource that
      occurs, holding that resource's entries in query order. */
  method GroupByResource(ps: seq<ListedPermission>) returns (grouped: map<string, seq<ListedPermission>>)
    ensures grouped.Keys == ResourcesOf(ps)
    ensures forall r :: r in grouped ==> grouped[r] == OfResource(ps, r)
  {
    grouped := map[];
    var i := 0;
    while i < |ps|
      invariant 0 <= i <= |ps|
      invariant grouped.Keys == ResourcesOf(ps[..i])
      invariant forall r :: r in grouped ==> grouped[r] == OfResource(ps[..i], r)
    {
      grouped := AddToGroup(ps, i, grouped);
      i := i + 1;
    }
    assert ps[..i] == ps;
  }

  /** The body of the grouping loop: entry `i` joins its resource's group,
      which is created when missing. */
  method AddToGroup(ps: seq<ListedPermission>, i: nat, grouped: map<string, seq<ListedPermission>>)
    returns (grouped': map<string, seq<ListedPermission>>)
    requires i < |ps|
    requires grouped.Keys == ResourcesOf(ps[..i])
    requires forall r :: r in grouped ==> grouped[r] == OfResource(ps[..i], r)
    ensures grouped'.Keys == ResourcesOf(ps[..i + 1])
    ensures forall r :: r in grouped' ==> grouped'[r] == OfResource(ps[..i + 1], r)
  {
    GroupStep(ps, i, grouped);
    var key := ps[i].row.resource;
    grouped' := grouped;
    if key !in grouped' {
      grouped' := grouped'[key := []];
    }
    grouped' := grouped'[key := grouped'[key] + [ps[i]]];
    assert grouped' == grouped[key := (if key in grouped then grouped[key] else []) + [ps[i]]];
  }

  /** An entry is in a resource's group exactly when it is listed with that resource. */
  lemma {:induction false} OfResourceMember(ps: seq<ListedPermission>, resource: string, x: ListedPermission)
    ensures x in OfResource(ps, resource) <==> x in ps && x.row.resource == resource
  {
    if ps != [] {
      var init := ps[..|ps| - 1];
      OfResourceMember(init, resource, x);
      assert ps == init + [ps[|ps| - 1]];
    }
  }

  lemma {:induction false} ListedResourceOccurs(ps: seq<ListedPermission>, x: ListedPermission)
    requires x in ps
    ensures x.row.resource in ResourcesOf(ps)
  {
    var init := ps[..|ps| - 1];
    assert ps == init + [ps[|ps| - 1]];
    if x != ps[|ps| - 1] {
      ListedResourceOccurs(init, x);
    }
  }

  /** Each listed permission sits in the group of its own resource and in no
      other group. */
  lemma EachInItsOwnGroup(ps: seq<ListedPermission>, grouped: map<string, seq<ListedPermission>>, x: ListedPermission)
    requires grouped.Keys == ResourcesOf(ps)
    requires forall r :: r in grouped ==> grouped[r] == OfResource(ps, r)
    requires x in ps
    ensures x.row.resource in grouped && x in grouped[x.row.resource]
    ensures forall r :: r in grouped && x in grouped[r] ==> r == x.row.resource
  {
    ListedResourceOccurs(ps, x);
    OfResourceMember(ps, x.row.resource, x);
    forall r | r in grouped && x in grouped[r]
      ensures r == x.row.resource
    {
      OfResourceMember(ps, r, x);
    }
  }

  /** The response of `create_role`. */
  datatype CreatedRole = CreatedRole(id: string, name: string, description: Option<string>, permissionCount: nat)

  class RoleStore {
    var roles: map<string, RoleRow>
    var catalogue: map<string, PermissionRow>
    var links: seq<Link>

    /** Every link names an existing role and an existing permission. */
    ghost predicate Valid()
      reads this
    {
      forall l :: l in links ==> l.roleId in roles && l.permissionId in catalogue
    }

    constructor (roles: map<string, RoleRow>, catalogue: map<string, PermissionRow>)
      ensures Valid()
      ensures this.roles == roles && this.catalogue == catalogue && links == []
    {
      this.roles := roles;
      this.catalogue := catalogue;
      links := [];
    }

    predicate NameTaken(name: string)
      reads this
    {
      exists id :: id in roles && roles[id].name == name
    }

    /** The permissions a user holding this role has. */
    function RolePermissions(roleId: string): seq<PermissionRow>
      reads this
    {
      PermissionsOf(links, catalogue, roleId)
    }

    /** The loop that adds one link per requested id found in the catalogue. */
    method AddLinks(roleId: string, ids: seq<string>)
      requires Valid() && roleId in roles
      modifies this`links
      ensures Valid()
      ensures links == old(links) + LinksFor(roleId, ids, catalogue)
    {
      var i := 0;
      while i < |ids|
        invariant 0 <= i <= |ids|
        invariant Valid()
        invariant links == old(links) + LinksFor(roleId, ids[..i], catalogue)
      {
        assert ids[..i + 1][..i] == ids[..i];
        if ids[i] in catalogue {
          links := links + [Link(roleId, ids[i])];
        }
        i := i + 1;
      }
      assert ids[..i] == ids;
    }

    /** `create_role` as written. The Role it builds sets `id`, `name`,
        `description` and `is_system` but not `display_name`, a column
        declared NOT NULL with no default, so the first commit fails with the
        database's IntegrityError (whose text is `dbError`); the handler rolls
        back and answers 500. A taken name is still refused with 400 first.
        Nothing is ever stored, so the store is only read. */
    function CreateRoleAsWritten(name: string, dbError: string): (r: HttpResult<CreatedRole>)
      reads this
      ensures r.HttpError?
      ensures r.status == 400 <==> NameTaken(name)
      ensures NameTaken(name) ==> r.detail == "Role '" + name + "' already exists"
      ensures !NameTaken(name) ==> r == HttpError(500, "Failed to create role: " + dbError)
    {
      if NameTaken(name) then HttpError(400, "Role '" + name + "' already exists")
      else HttpError(500, "Failed to create role: " + dbError)
    }

    /** `create_role` with `display_name` supplied, so that the first commit
        stores the role; `newId` is the fresh uuid. */
    method CreateRole(newId: string, name: string, description: Option<string>, permissionIds: Option<seq<string>>)
      returns (r: HttpResult<CreatedRole>)
      requires Valid() && newId !in roles
      modifies this`roles, this`links
      ensures Valid()
      ensures old(NameTaken(name)) ==>
        r == HttpError(400, "Role '" + name + "' already exists") && roles == old(roles) && links == old(links)
      ensures !old(NameTaken(name)) ==> roles == old(roles)[newId := RoleRow(name, description, false, None)]
      ensures !old(NameTaken(name)) && permissionIds.None? ==>
        r == HttpError(500, "Failed to create role: 'NoneType' object is not iterable") && links == old(links)
      ensures !old(NameTaken(name)) && permissionIds.Some? ==>
        links == old(links) + LinksFor(newId, permissionIds.value, catalogue)
        && r == Ok(CreatedRole(newId, name, description, |permissionIds.value|))
    {
      if NameTaken(name) {
        return HttpError(400, "Role '" + name + "' already exists");
      }
      roles := roles[newId := RoleRow(name, description, false, None)];
      if permissionIds.None? {
        return HttpError(500, "Failed to create role: 'NoneType' object is not iterable");
      }
      AddLinks(newId, permissionIds.value);
      r := Ok(CreatedRole(newId, name, description, |permissionIds.value|));
    }

    /** `update_role` at time `now`. */
    method UpdateRole(roleId: string, description: Option<string>, permissionIds: Option<seq<string>>, now: int)
      returns (r: HttpResult<RoleRow>)
      requires Valid()
      modifies this`roles, this`links
      ensures Valid()
      ensures roleId !in old(roles) ==> r == HttpError(404, "Role not found") && roles == old(roles) && links == old(links)
      ensures roleId in old(roles) && old(roles)[roleId].isSystem ==>
        r == HttpError(400, "Cannot modify system roles") && roles == old(roles) && links == old(links)
      ensures roleId in old(roles) && !old(roles)[roleId].isSystem ==>
        var was := old(roles)[roleId];
        var now' := was.(description := if description.Some? then description else was.description, updatedAt := Some(now));
        roles == old(roles)[roleId := now'] && r == Ok(now')
        && links == (if permissionIds.Some? then WithoutRole(old(links), roleId) + LinksFor(roleId, permissionIds.value, catalogue)
                     else old(links))
    {
      if roleId !in roles {
        return HttpError(404, "Role not found");
      }
      var role := roles[roleId];
      if role.isSystem {
        return HttpError(400, "Cannot modify system roles");
      }
      if description.Some? {
        role := role.(description := description);
      }
      if permissionIds.Some? {
        links := WithoutRole(links, roleId);
        AddLinks(roleId, permissionIds.value);
      }
      role := role.(updatedAt := Some(now));
      roles := roles[roleId := role];
      r := Ok(role);
    }

    /** `assign_permission`; the response carries the permission's name. */
    method AssignPermission(roleId: string, permissionId: string) returns (r: HttpResult<string>)
      requires Valid()
      modifies this`links
      ensures Valid()
      ensures roleId !in roles ==> r == HttpError(404, "Role not found") && links == old(links)
      ensures roleId in roles && permissionId !in catalogue ==> r == HttpError(404, "Permission not found") && links == old(links)
      ensures roleId in roles && permissionId in catalogue && Link(roleId, permissionId) in old(links) ==>
        r == HttpError(400, "Permission already assigned to this role") && links == old(links)
      ensures roleId in roles && permissionId in catalogue && Link(roleId, permissionId) !in old(links) ==>
        r == Ok(catalogue[permissionId].name) && links == old(links) + [Link(roleId, permissionId)]
    {
      if roleId !in roles {
        return HttpError(404, "Role not found");
      }
      if permissionId !in catalogue {
        return HttpError(404, "Permission not found");
      }
      if Link(roleId, permissionId) in links {
        return HttpError(400, "Permission already assigned to this role");
      }
      links := links + [Link(roleId, permissionId)];
      r := Ok(catalogue[permissionId].name);
    }

    /** `remove_permission` (204 with no body on success). */
    method RemovePermission(roleId: string, permissionId: string) returns (r: HttpResult<()>)
      requires Valid()
      modifies this`links
      ensures Valid()
      ensures roleId !in roles ==> r == HttpError(404, "Role not found") && links == old(links)
      ensures roleId in roles && Link(roleId, permissionId) !in old(links) ==>
        r == HttpError(404, "Permission not assigned to this role") && links == old(links)
      ensures roleId in roles && Link(roleId, permissionId) in old(links) ==>
        r == Ok(()) && links == RemoveFirst(old(links), Link(roleId, permissionId))
    {
      if roleId !in roles {
        return HttpError(404, "Role not found");
      }
      if Link(roleId, permissionId) !in links {
        return HttpError(404, "Permission not assigned to this role");
      }
      links := RemoveFirst(links, Link(roleId, permissionId));
      r := Ok(());
    }

    /** Assigning a pair and then removing it restores the relation. */
    method AssignThenRemove(roleId: string, permissionId: string)
      requires Valid() && roleId in roles && permissionId in catalogue && Link(roleId, permissionId) !in links
      modifies this`links
      ensures Valid() && links == old(links)
    {
      var a := AssignPermission(roleId, permissionId);
      var b := RemovePermission(roleId, permissionId);
      RemoveAppended(old(links), Link(roleId, permissionId));
    }
  }
}
