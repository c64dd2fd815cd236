/** api/middleware/tenant.py: which tenant a request addresses, and the tenant
    a user may act in. The `tenants` table is a sequence in query order, so a
    lookup's `.first()` is the first matching row. */
module Tenancy {

  import opened Common
  import opened PyText

  datatype Tenant = Tenant(id: string, slug: string, isActive: bool)

  /** The parts of a request the resolution reads: the `X-Tenant-ID` and
      `Host` headers (absent or present) and the URL path. */
  datatype Request = Request(tenantHeader: Option<string>, host: Option<string>, path: string)

  /** The first active tenant with this id. */
  function ActiveById(tenants: seq<Tenant>, id: string): (r: Option<Tenant>)
    ensures r.Some? ==> r.value in tenants && r.value.id == id && r.value.isActive
    ensures r.None? ==> forall t :: t in tenants ==> !(t.id == id && t.isActive)
  {
    if tenants == [] then None
    else if tenants[0].id == id && tenants[0].isActive then Some(tenants[0])
    else ActiveById(tenants[1..], id)
  }

  /** The first active tenant with this slug. */
  function ActiveBySlug(tenants: seq<Tenant>, slug: string): (r: Option<Tenant>)
    ensures r.Some? ==> r.value in tenants && r.value.slug == slug && r.value.isActive
    ensures r.None? ==> forall t :: t in tenants ==> !(t.slug == slug && t.isActive)
  {
    if tenants == [] then None
    else if tenants[0].slug == slug && tenants[0].isActive then Some(tenants[0])
    else ActiveBySlug(tenants[1..], slug)
  }

  /** Method 1: a non-empty `X-Tenant-ID` header naming an active tenant. */
  function FromHeader(req: Request, tenants: seq<Tenant>): (r: Option<Tenant>)
    ensures r.Some? ==> req.tenantHeader.Some? && req.tenantHeader.value != "" && r.value.id == req.tenantHeader.value
  {
    if req.tenantHeader.Some? && req.tenantHeader.value != "" then ActiveById(tenants, req.tenantHeader.value)
    else None
  }

  /** Method 2: a `Host` of more than two dot-separated parts, whose first
      part is the slug of an active tenant. A missing `Host` reads as "". */
  function FromSubdomain(req: Request, tenants: seq<Tenant>): (r: Option<Tenant>)
    ensures r.Some? ==> (var parts := Split(req.host.GetOr(""), ".");
                         |parts| > 2 && r.value.slug == parts[0])
  {
    var parts := Split(req.host.GetOr(""), ".");
    if |parts| > 2 then ActiveBySlug(tenants, parts[0]) else None
  }

  /** Method 3: a path `/<x>/tenants/<id>...` naming an active tenant by id. */
  function FromPath(req: Request, tenants: seq<Tenant>): (r: Option<Tenant>)
    ensures r.Some? ==> (var parts := Split(req.path, "/");
                         |parts| > 3 && parts[2] == "tenants" && r.value.id == parts[3])
  {
    var parts := Split(req.path, "/");
    if |parts| > 3 && parts[2] == "tenants" then ActiveById(tenants, parts[3]) else None
  }

  /** `TenantMiddleware.get_tenant_from_request`: the three methods in order,
      each falling through to the next when its lookup finds nothing. */
  function TenantFromRequest(req: Request, tenants: seq<Tenant>): (r: Option<Tenant>)
    ensures r.Some? ==> r.value in tenants && r.value.isActive
    ensures FromHeader(req, tenants).Some? ==> r == FromHeader(req, tenants)
    ensures FromHeader(req, tenants).None? && FromSubdomain(req, tenants).Some? ==> r == FromSubdomain(req, tenants)
    ensures FromHeader(req, tenants).None? && FromSubdomain(req, tenants).None? ==> r == FromPath(req, tenants)
  {
    if req.tenantHeader.Some? && req.tenantHeader.value != "" && ActiveById(tenants, req.tenantHeader.value).Some? then
      ActiveById(tenants, req.tenantHeader.value)
    else
      var parts := Split(req.host.GetOr(""), ".");
      if |parts| > 2 && ActiveBySlug(tenants, parts[0]).Some? then ActiveBySlug(tenants, parts[0])
      else
        var pathParts := Split(req.path, "/");
        if |pathParts| > 3 && pathParts[2] == "tenants" then ActiveById(tenants, pathParts[3])
        else None
  }

  /** Nothing resolves exactly when all three methods come up empty. */
  lemma NoneIffAllMethodsFail(req: Request, tenants: seq<Tenant>)
    ensures TenantFromRequest(req, tenants).None? <==>
      FromHeader(req, tenants).None? && FromSubdomain(req, tenants).None? && FromPath(req, tenants).None?
  {
  }

  /** A host without dots, or with exactly one, never selects a subdomain. */
  lemma ShortHostIsNoSubdomain(name: string, domain: string, req: Request, tenants: seq<Tenant>)
    requires '.' !in name && '.' !in domain
    requires req.host == Some(name) || req.host == Some(name + "." + domain)
    ensures FromSubdomain(req, tenants) == None
  {
    if req.host == Some(name) {
      SplitNone(name, '.');
    } else {
      SplitOnce(name, domain, '.');
    }
  }

  /** How a path of three separated segments splits. */
  lemma SplitThreeSegments(prefix: string, word: string, id: string)
    requires '/' !in prefix && '/' !in word && '/' !in id
    ensures Split("/" + prefix + "/" + word + "/" + id, "/") == [[], prefix, word, id]
  {
    var s := "/" + prefix + "/" + word + "/" + id;
    var x := prefix + "/" + word + "/" + id;
    assert s == "/" + x by {
      AppendAssoc("/", prefix, "/");
      AppendAssoc("/", prefix + "/", word);
      AppendAssoc("/", prefix + "/" + word, "/");
      AppendAssoc("/", prefix + "/" + word + "/", id);
    }
    SplitThree(prefix, word, id, '/');
    SplitLeading(x);
  }

  lemma SplitLeading(x: string)
    ensures Split(['/'] + x, ['/']) == [[]] + Split(x, ['/'])
  {
    SplitCons([], x, '/');
    assert [] + ['/'] + x == ['/'] + x;
  }

  /** `/<prefix>/tenants/<id>` names the tenant `<id>` when it is active. */
  lemma TenantPathNamesTenant(prefix: string, word: string, id: string, req: Request, tenants: seq<Tenant>)
    requires word == "tenants"
    requires '/' !in prefix && '/' !in id
    requires req.path == "/" + prefix + "/" + word + "/" + id
    ensures FromPath(req, tenants) == ActiveById(tenants, id)
  {
    assert '/' !in word;
    SplitThreeSegments(prefix, word, id);
  }

  /** `get_current_tenant`: a resolved tenant other than the user's is 403;
      without one, the user's own active tenant, else 404. */
  function CurrentTenant(req: Request, userTenantId: string, tenants: seq<Tenant>): (r: HttpResult<Tenant>)
    ensures TenantFromRequest(req, tenants).Some? && TenantFromRequest(req, tenants).value.id != userTenantId ==>
      r == HttpError(403, "Access denied to this tenant")
    ensures TenantFromRequest(req, tenants).None? && ActiveById(tenants, userTenantId).None? ==>
      r == HttpError(404, "Tenant not found or inactive")
    ensures r.Ok? ==> r.value.id == userTenantId && r.value.isActive && r.value in tenants
  {
    match TenantFromRequest(req, tenants)
    case Some(t) =>
      if userTenantId != t.id then HttpError(403, "Access denied to this tenant") else Ok(t)
    case None =>
      match ActiveById(tenants, userTenantId)
      case None => HttpError(404, "Tenant not found or inactive")
      case Some(t) => Ok(t)
  }

  /** A user only ever receives its own tenant, and receives it whenever that
      tenant is active and the request names no other active tenant. */
  lemma OwnTenantIsGranted(req: Request, userTenantId: string, tenants: seq<Tenant>)
    requires ActiveById(tenants, userTenantId).Some?
    requires TenantFromRequest(req, tenants).None? || TenantFromRequest(req, tenants).value.id == userTenantId
    ensures CurrentTenant(req, userTenantId, tenants).Ok?
  {
  }
}
