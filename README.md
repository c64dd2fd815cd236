# RAG-ENTERPRISE core, modelled in Dafny

RAG-ENTERPRISE is an enterprise retrieval-augmented generation platform with
first-class Arabic support: a FastAPI backend (JWT authentication, role-based
access control, tenants, rate limiting, admin routes), Dify-backed agents and
sequential agent workflows, text chunking, in-memory vector stores with hybrid
search, the RAG pipeline that turns retrieved documents into a prompt, and a
Next.js front end. This project models the core of that system and proves
properties of the model. Each Dafny module models one source file:

| module | source file |
|---|---|
| `Rbac` | core/rbac.py |
| `PermissionsDecorators` | core/permissions_decorators.py |
| `UserModel` | api/models/user.py |
| `RoleAdmin` | api/routes/admin/roles.py |
| `AdminRolesStatic` | api/routes/admin_roles.py |
| `CoreAuth` | core/auth.py |
| `AuthMiddleware` | api/middleware/auth.py |
| `AuthRoutes` | api/routes/auth.py |
| `Tenancy` | api/middleware/tenant.py |
| `RateLimit` | api/middleware/rate_limit.py |
| `AgentFactory` | agents/agent_factory.py |
| `Workflow` | agents/workflow.py |
| `DifyConfig` | core/dify_config.py |
| `BaseAgent` | core/base_agent.py |
| `Router` | orchestration/patterns/router_pattern.py |
| `TextSplitting` | document_processing/chunking/text_splitter.py |
| `MultilingualSplitting` | document_processing/chunking/multilingual_splitter.py |
| `DocumentService` | api/services/document_processor.py (`_chunk_text`) |
| `BaseProcessing` | document_processing/processors/base_processor.py |
| `MemoryStore` | knowledge_base/vector_store/memory_store.py |
| `VectorLists` | knowledge_base/vector_store/memory_vector_store.py |
| `HybridSearch` | knowledge_base/retrieval/hybrid_search.py |
| `RagPipeline` | core/rag/rag_pipeline.py |
| `Storage` | utilities/storage.py |
| `Helpers` | utilities/helpers.py |
| `AdminModels` | api/routes/admin/models.py |
| `ApiConstants` | frontend/app/lib/api-constants.ts |
| `ApiAdapter` | frontend/app/lib/adapters/api-adapter.ts |
| `AuthContext` | frontend/app/contexts/auth-context.tsx |
| `ProtectedRoute` | frontend/app/components/auth/protected-route.tsx |
| `Sidebar` | frontend/app/components/admin/sidebar.tsx |
| `I18n` | frontend/app/i18n/i18n-context.tsx |

Four helper modules carry the language semantics the model relies on:
`Common` (Option, the HTTP result and exception shapes), `PyText`
(Python `str` methods and slice clamping), `PyPath` (`os.path.basename`
and `pathlib` name and suffix) and `Ranking` (the stable descending sort
behind every `sort(key=..., reverse=True)`).

The form follows the source. Pure computations (permission tables, claim
sets, prompt building, keyword extraction, text cleaning) are functions
with lemmas. Objects whose methods update fields in place (the rate
limiter, the role store, the vector stores, workflows, the storage manager,
the model table, the React providers) are classes whose methods state
their new state in terms of the old. Loops in the source (chunk merging, the
forced split, grouping, index collection, citation building) are `while`
loops proved against a specification function.

Database tables are sequences in query order, so `.first()` is the first
matching row. HTTP exceptions are `HttpError(status, detail)` values. Python
exceptions that escape a call are `Raised(message)` values.

## Model

| member | source | states |
|---|---|---|
| ApiConstants.Base | frontend/app/lib/api-constants.ts:2 | the base URL is the environment value when it is set and non-empty, else `http://localhost:8000`, and is never empty |
| ApiConstants.Endpoint | frontend/app/lib/api-constants.ts:9-13 | the URL is the base followed by the path, which always starts with `/`; one `/` is added exactly when the path lacks one, and the path itself ends the URL |
| ApiConstants.SlashInsensitive | frontend/app/lib/api-constants.ts:9-13 | `endpoint('x')` and `endpoint('/x')` are the same URL exactly when `x` does not already start with `/` |
| ApiConstants.EndpointOfPathPart | frontend/app/lib/api-constants.ts:9-13 | feeding the path part of a result back in gives the same URL |
| ApiAdapter.NewAdapter | frontend/app/lib/adapters/api-adapter.ts:9-11 | the adapter keeps the base URL it is given (`/api/v1` by default) |
| ApiAdapter.AdaptEndpoint | frontend/app/lib/adapters/api-adapter.ts:16-25 | a mapped console endpoint is rewritten to its backend endpoint; any other endpoint is returned unchanged |
| ApiAdapter.AdaptIdempotent | frontend/app/lib/adapters/api-adapter.ts:16-25 | adapting an adapted endpoint changes nothing |
| ApiAdapter.AdaptChangesExactlyMapped | frontend/app/lib/adapters/api-adapter.ts:18-24 | only `/console/api/apps` and `/console/api/datasets` are rewritten |
| ApiAdapter.AdaptRequest | frontend/app/lib/adapters/api-adapter.ts:30-33 | the request data is passed through unchanged |
| ApiAdapter.AdaptResponse | frontend/app/lib/adapters/api-adapter.ts:38-41 | the response is passed through unchanged |
| ProtectedRoute.Effect | frontend/app/components/auth/protected-route.tsx:17-25 | while loading there is no redirect; otherwise an unauthenticated session goes to `/login`, and an authenticated non-admin on an admin page goes to `/home` |
| ProtectedRoute.Render | frontend/app/components/auth/protected-route.tsx:27-42 | a spinner exactly while loading; nothing exactly when the effect redirects; the children only when there is no redirect |
| ProtectedRoute.ChildrenIff | frontend/app/components/auth/protected-route.tsx:27-42 | the children are shown exactly to a settled, authenticated session that meets the admin requirement |
| ProtectedRoute.DefaultIgnoresAdmin | frontend/app/components/auth/protected-route.tsx:9-42 | with `requireAdmin` left at its default, the admin flag changes neither the view nor the redirect |
| UserModel.ParseStatus | api/models/user.py:10-15 | a status string parses only to the enum member whose value it is |
| UserModel.StatusRoundTrip | api/models/user.py:10-15 | each of the four statuses parses back from its value |
| UserModel.AnyGrants | api/models/user.py:73-78 | the loop answers true exactly when some linked permission has both the resource and the action |
| UserModel.HasPermission | api/models/user.py:68-78 | a user without a role has no permission |
| UserModel.PartialMatchDoesNotGrant | api/models/user.py:75-76 | a permission matching only the resource or only the action never grants |
| UserModel.AddingLinkIsMonotone | api/models/user.py:68-78 | linking one more permission keeps every grant and adds at most that permission's own resource and action |
| Sidebar.IsItemActive | frontend/app/components/admin/sidebar.tsx:86-91 | the overview link is active only on exactly `/admin`; any other link is active on every path it is a string prefix of |
| Sidebar.IsSectionActive | frontend/app/components/admin/sidebar.tsx:93-95 | a section is active exactly when one of its items is active |
| Sidebar.TwoItemsActive | frontend/app/components/admin/sidebar.tsx:86-91 | prefix matching makes "All Agents" and "Create Agent" active together on `/admin/agents/create` |
| Sidebar.DashboardActiveIff | frontend/app/components/admin/sidebar.tsx:86-95 | the Dashboard section is active exactly on `/admin` and under `/admin/analytics` |
| Sidebar.Toggle | frontend/app/components/admin/sidebar.tsx:101-103 | toggling expands the section unless it is the expanded one, which collapses to none |
| Sidebar.ToggleTwice | frontend/app/components/admin/sidebar.tsx:101-103 | toggling the same section twice restores the state when that section or none was expanded |
| Sidebar.SidebarState.constructor | frontend/app/components/admin/sidebar.tsx:83-84 | the sidebar starts with Dashboard expanded and the given collapsed flag |
| Sidebar.SidebarState.ToggleSection | frontend/app/components/admin/sidebar.tsx:101-155 | the expanded section is toggled; afterwards only that section's items can be visible, and they are when the sidebar is not collapsed and the section was not already expanded |
| Sidebar.SidebarState.ToggleCollapsed | frontend/app/components/admin/sidebar.tsx:119-155 | the collapse flag flips; a collapsed sidebar shows no section's items |
| I18n.Descend | frontend/app/i18n/i18n-context.tsx:30-32 | once a step finds nothing, every later step finds nothing |
| I18n.DescendAppend | frontend/app/i18n/i18n-context.tsx:27-32 | looking up a concatenated key path is looking up each part in turn |
| I18n.Translate | frontend/app/i18n/i18n-context.tsx:26-35 | `t` returns the value found when it is truthy, else the key itself; a text result is empty only for the empty key |
| I18n.MissingPartGivesKey | frontend/app/i18n/i18n-context.tsx:26-35 | a key with a missing part at any depth translates to itself |
| I18n.Dir | frontend/app/i18n/i18n-context.tsx:39 | the text direction is right-to-left exactly for Arabic |
| I18n.I18nProvider.constructor | frontend/app/i18n/i18n-context.tsx:24 | the provider starts in English over the two fixed tables |
| I18n.I18nProvider.SetLocale | frontend/app/i18n/i18n-context.tsx:24-28 | the locale is set, and later lookups read that locale's table |
| Rbac.PermValueShape | core/rbac.py:12-53 | every permission value is a non-empty resource, one `:` and a non-empty action |
| Rbac.PermValueInjective | core/rbac.py:12-53 | distinct permissions have distinct values |
| Rbac.ParseRole | core/rbac.py:56-63 | a string parses to the role whose value it is, and fails exactly when no role has that value |
| Rbac.ParseRoleValue | core/rbac.py:56-63 | every role's value parses back to the role |
| Rbac.UpperCaseNamesDoNotParse | core/rbac.py:56-63 | an upper-case member name such as `ADMIN` is not a role value |
| Rbac.PermissionsFor | core/rbac.py:172 | a role's value finds that role's list; any other key finds the empty list |
| Rbac.HasPermission | core/rbac.py:170-173 | true exactly when the key parses as a role whose list holds the permission |
| Rbac.HasPermissionIff | core/rbac.py:170-173 | true exactly when the key is the value of some role whose list holds the permission |
| Rbac.HasAnyPermission | core/rbac.py:176-179 | true exactly when some required permission is held |
| Rbac.HasAllPermissions | core/rbac.py:182-185 | true exactly when every required permission is held |
| Rbac.HasPermissionOfRole | core/rbac.py:170-173 | for a role's value, the check is membership in that role's list |
| Rbac.SuperAdminHasEverything | core/rbac.py:67 | SUPER_ADMIN holds every permission |
| Rbac.OnlySuperAdminIsSystemAdmin | core/rbac.py:66-132 | `system:admin` belongs to SUPER_ADMIN and to no other role |
| Rbac.UnknownKeyHasNothing | core/rbac.py:172-185 | a key that is no role's value holds nothing: `any` is false, and `all` is true only for an empty list |
| Rbac.SingletonAgreement | core/rbac.py:170-185 | on a single permission, the three checks agree |
| Rbac.AllImpliesAny | core/rbac.py:176-185 | `all` implies `any` on a non-empty list; on the empty list `any` is false and `all` is true |
| Rbac.ReferenceExamples | test_rbac_system.py:76-93 | each of the reference script's checks gets its expected answer: SUPER_ADMIN has `agent:read`, USER lacks `system:admin`, MANAGER has `agent:create`, VIEWER lacks `knowledge:delete` |
| Rbac.RoleSizes | core/rbac.py:66-132 | the roles hold 28, 21, 12, 8, 6 and 3 permissions |
| PermissionsDecorators.DerivedRole | core/permissions_decorators.py:29 | a missing or empty `role_id` is read as the `user` role; any other id is parsed as a role value and may fail |
| PermissionsDecorators.Gate | core/permissions_decorators.py:11-122 | every wrapper answers 401 "Not authenticated" when there is no user, a ValueError when the role id is not a role value, calls through exactly when the role meets the wrapper's requirement, and otherwise raises 403 with the wrapper's own detail |
| PermissionsDecorators.UnauthenticatedFirst | core/permissions_decorators.py:23-27 | all four wrappers reject a missing user with 401 whatever they require |
| PermissionsDecorators.BadRoleIdIsValueError | core/permissions_decorators.py:29 | an unknown role id ends in the ValueError of the enum lookup, never in a 403 |
| PermissionsDecorators.NoRoleIdActsAsUser | core/permissions_decorators.py:29-35 | a user without a role id passes `require_permission` exactly for chat creation, chat reading and knowledge reading |
| PermissionsDecorators.WrappersAgree | core/permissions_decorators.py:31-86 | on a one-element list the three permission wrappers admit the same users and refuse the others with the same status; the empty list refuses under "any" and admits under "all" |
| PermissionsDecorators.DetailNamesPermission | core/permissions_decorators.py:31-35 | two 403 details of `require_permission` are equal only for the same permission |
| AdminRolesStatic.AsWrittenGatesRefuseEveryone | api/routes/admin_roles.py:22 | as written, every permission gate refuses every caller: the Role object and the fallback `"USER"` both find no permission list, so every endpoint of the file answers 403 |
| AdminRolesStatic.RoleLessCallerIsRefused | api/routes/admin_roles.py:22 | with the gate reading the role's name, a caller with no role is still refused by every gate, even one a plain `user` passes, because the fallback key `"USER"` is not a role value |
| AdminRolesStatic.SystemAdminGateIff | api/routes/admin_roles.py:22 | with the gate reading the role's name, the `system:admin` gate admits exactly callers whose role row is named `super_admin` |
| AdminRolesStatic.DisplayNameShape | api/routes/admin_roles.py:34 | a role's display name keeps the name's length and has no underscore left |
| AdminRolesStatic.DisplayNameWords | api/routes/admin_roles.py:34 | for every name and position: the display name has the name's length; a letter stays the same letter, upper-case exactly at the start of the name or after a non-letter, lower-case otherwise; an underscore becomes a space and any other non-letter is kept |
| AdminRolesStatic.SuperAdminDisplayName | api/routes/admin_roles.py:34 | `SUPER_ADMIN` is displayed as `Super Admin` |
| AdminRolesStatic.RoleDescription | api/routes/admin_roles.py:298-308 | the description is empty exactly for a string that is no role value |
| AdminRolesStatic.ListRoles | api/routes/admin_roles.py:19-43 | with the corrected gate: 403 without `system:admin`; otherwise one entry per role in enum order, with that role's value, member name, display name, permission values and their count |
| AdminRolesStatic.GetRoleDetails | api/routes/admin_roles.py:46-76 | with the corrected gate: 403 without `system:admin`, 404 for an id that is no role value, otherwise that role's id, member name, display name, permissions and a non-empty description |
| AdminRolesStatic.ValueParts | api/routes/admin_roles.py:101-102 | splitting a permission value at `:` gives back its resource and its action |
| AdminRolesStatic.GroupCatalogue | api/routes/admin_roles.py:87-111 | the grouping loop leaves exactly the eight fixed groups, each holding the entries of its resource in order |
| AdminRolesStatic.ListPermissions | api/routes/admin_roles.py:79-117 | with the corrected gate: 403 without `system:admin`; otherwise the eight groups of the catalogue and the catalogue's size as total |
| AdminRolesStatic.EntriesOfMember | api/routes/admin_roles.py:100-111 | an entry is in a resource's group exactly when it is the entry of a permission with that resource |
| AdminRolesStatic.EachPermissionListedOnce | api/routes/admin_roles.py:87-111 | every permission is listed in the group of its own resource and in no other, with resource and action split off |
| AdminRolesStatic.AsWrittenRefusesEveryRole | api/routes/admin_roles.py:171-178 | as written, every role request is refused with 400, since role values are lower case |
| AdminRolesStatic.AssignedRole | api/routes/admin_roles.py:171-178 | the corrected validation stores only strings that parse as a role |
| AdminRolesStatic.AssignedRoleAccepts | api/routes/admin_roles.py:171-178 | the corrected validation accepts each role by member name or by value, stores its value, and defaults to `user` |
| AdminRolesStatic.ValuesNonEmptyIff | api/routes/admin_roles.py:237-242 | a resource has a non-empty group exactly when one of the permissions has that resource |
| AdminRolesStatic.GroupValues | api/routes/admin_roles.py:237-242 | the grouping loop makes one key per resource that occurs, holding that resource's values in order |
| AdminRolesStatic.ValuesOfResourceMember | api/routes/admin_roles.py:237-242 | a value is in a resource's group exactly when it belongs to a permission of that resource, so each value is in one group |
| AdminRolesStatic.UserDirectory.GetUserRole | api/routes/admin_roles.py:122-153 | with the corrected gate and the user's role read by name: 403 without `user:read`, 404 for an unknown user; the stored role, or `"USER"`, must be a role value, otherwise the endpoint fails with a 500 |
| AdminRolesStatic.UserDirectory.AssignUserRoleAsWritten | api/routes/admin_roles.py:156-202 | with the corrected gate and the user's role read by name: as written: 403, then 400 for the upper-cased role, then 404, otherwise the user's role is replaced and nothing else changes |
| AdminRolesStatic.UserDirectory.AssignUserRole | api/routes/admin_roles.py:156-202 | with the corrected gate and the user's role read by name: corrected: every error leaves the users unchanged, and success stores a role value for a known user |
| AdminRolesStatic.UserDirectory.GetRoleStatistics | api/routes/admin_roles.py:259-279 | with the corrected gate and the user's role read by name: 403 without `system:admin`; otherwise the number of users and, per role, the number of users holding its value |
| AdminRolesStatic.UserDirectory.GetUserPermissions | api/routes/admin_roles.py:205-256 | with the corrected gate and the user's role read by name: 403, 404, 400 for a stored role that is no role value; otherwise that role's values, grouped by resource, and their count |
| AdminRolesStatic.StoredRolesAreReadable | api/routes/admin_roles.py:171-178 | a role stored by the corrected endpoint is always accepted by `get_user_permissions`, while a role-less user gets 400 "Invalid role: USER" |
| AdminRolesStatic.RoleStatistics | api/routes/admin_roles.py:272-275 | one row per role, in enum order, keyed by the member name, with that role's user count |
| AdminRolesStatic.SumIsUnion | api/routes/admin_roles.py:272-275 | for distinct roles the counts add up to the number of users holding one of them |
| AdminRolesStatic.StatisticsAtMostTotal | api/routes/admin_roles.py:272-282 | the per-role counts never add up to more than the total number of users |
| AgentFactory.AllPresent | agents/agent_factory.py:81-82 | `all(key in inputs for key in required)` holds exactly when every required key is an input |
| AgentFactory.ValidateInputs | agents/agent_factory.py:79-244 | each agent type's inputs are valid exactly when they hold that type's required keys |
| AgentFactory.ValidationIsMonotone | agents/agent_factory.py:79-244 | adding inputs never makes valid inputs invalid |
| AgentFactory.Execute | agents/agent_factory.py:59-239 | invalid inputs give the type's error dict with no Dify call; otherwise Dify runs under the agent's id and its answer is wrapped with the type's result tag |
| AgentFactory.InvalidInputsNeverReachDify | agents/agent_factory.py:59-66 | for invalid inputs the outcome does not depend on Dify, and holds an error and no result |
| AgentFactory.Status | agents/agent_factory.py:45-53 | the status dict has exactly the five keys, the agent's id and type, and status `ready` |
| AgentFactory.AvailableAgentTypes | agents/agent_factory.py:338-340 | the available types are the seven type values in registry order |
| AgentFactory.AgentClassesCoverTypes | agents/agent_factory.py:254-262 | a string is an available type exactly when it is an agent type value |
| AgentFactory.Factory.GetAgent | agents/agent_factory.py:323-325 | the agent registered under the id, if any |
| AgentFactory.Factory.CreateAgent | agents/agent_factory.py:276-321 | the custom configuration wins over the registered one; a missing configuration or an unknown type gives `None` and changes nothing; otherwise the new agent is registered under its id, replacing any earlier one |
| AgentFactory.Factory.RemoveAgent | agents/agent_factory.py:327-332 | answers true exactly when the id was registered, and afterwards it is not |
| AgentFactory.CreatableTypes | agents/agent_factory.py:276-304 | with the default registry, an agent can be created for exactly the seven agent types |
| AgentFactory.FactorySlot.GetAgentFactory | agents/agent_factory.py:347-364 | the stored factory is returned; when none is stored a new empty one is made and stored |
| AgentFactory.FactorySlot.Reset | agents/agent_factory.py:367-370 | afterwards no factory is stored |
| AgentFactory.Factory.constructor | agents/agent_factory.py:264-274 | a new factory keeps its configuration and holds no agent instance |
| AuthContext.Or | frontend/app/contexts/auth-context.tsx:63 | JavaScript `or` of two optional strings is truthy exactly when one side is, and is `a` when `a` is truthy |
| AuthContext.OrElse | frontend/app/contexts/auth-context.tsx:60-61 | `or` with a non-empty fallback gives `a` when it is truthy and the fallback otherwise |
| AuthContext.Defined | frontend/app/contexts/auth-context.tsx:63 | `or undefined` keeps exactly the non-empty strings |
| AuthContext.RoleNameOf | frontend/app/contexts/auth-context.tsx:63 | the nested role name wins when it is non-empty, then the flat `role_name`; an empty name is never kept |
| AuthContext.FromMe | frontend/app/contexts/auth-context.tsx:55-66 | the `/auth/me` user has id and email or `""`, the display name `full_name`, then `name`, then `User`, the role id only when non-empty, the nested role name then `role_name`, and is active unless the payload says `false` |
| AuthContext.FromLogin | frontend/app/contexts/auth-context.tsx:97-106 | a login without a user payload gives the typed email, the name `User` and no role; a payload is normalised as `/auth/me` is, except that a missing or empty email falls back to the typed one |
| AuthContext.FromRegister | frontend/app/contexts/auth-context.tsx:138-145 | the registered user is the login user except that the name also falls back to the typed name and `role_name` is never set |
| AuthContext.RegisterNameFallback | frontend/app/contexts/auth-context.tsx:141 | register and login agree on the display name when the payload carries one; otherwise register uses the typed-in name |
| AuthContext.IsAdmin | frontend/app/contexts/auth-context.tsx:158-161 | without a user `isAdmin` is false |
| AuthContext.IsAuthenticated | frontend/app/contexts/auth-context.tsx:171 | `isAuthenticated` holds exactly when a user is set |
| AuthContext.AdminRedirectImpliesIsAdmin | frontend/app/contexts/auth-context.tsx:109-116 | a login that redirects to `/admin` leaves a session that `isAdmin` accepts |
| AuthContext.IsAdminWithoutAdminRedirect | frontend/app/contexts/auth-context.tsx:109-116 | the converse fails: an upper-case `ADMIN` role id, or a flat `role_name` of `admin`, passes `isAdmin` but the login sends the user to `/home` |
| AuthContext.AuthProvider.CheckAuth | frontend/app/contexts/auth-context.tsx:39-76 | `/auth/me` is asked exactly when a non-empty access token is stored; a refused answer removes both stored tokens and leaves the user as it was, a thrown one changes nothing, a good one sets the normalised user; loading ends in every case |
| AuthContext.AuthProvider.Login | frontend/app/contexts/auth-context.tsx:78-117 | a failed login raises its message and changes nothing; a good one stores both tokens, sets the normalised user and navigates to `/admin` or `/home` by the redirect test |
| AuthContext.AuthProvider.Register | frontend/app/contexts/auth-context.tsx:119-148 | as login, but always navigating to `/home` |
| AuthContext.AuthProvider.Logout | frontend/app/contexts/auth-context.tsx:150-155 | both tokens are removed, the user is cleared (so neither authenticated nor admin), and `/login` is visited |
| AuthContext.AuthProvider.RegisterFullName | frontend/app/contexts/auth-context.tsx:124 | the register request sends the typed name as `full_name`, or the email when no name is typed |
| AuthContext.AuthProvider.constructor | frontend/app/contexts/auth-context.tsx:28-29 | the provider starts with no user, loading, over the stored tokens, and has navigated nowhere |
| AuthMiddleware.AccessClaims | api/middleware/auth.py:25-43 | the access claims are the data plus `exp` and `type: access`; `exp` is now plus the given lifetime, or plus the configured minutes when none (or zero) is given; the other keys are kept |
| AuthMiddleware.RefreshClaims | api/middleware/auth.py:45-56 | the refresh claims are the data plus `type: refresh` and an `exp` the configured number of days ahead |
| AuthMiddleware.DecodeToken | api/middleware/auth.py:59-77 | decoding succeeds exactly when the token decodes, with its claims; an expired token is 401 "Token has expired", any other failure 401 "Could not validate credentials" |
| AuthMiddleware.DecodeTokenAsWritten | api/middleware/auth.py:59-77 | as written, a decoded token gives its claims and an expired one the 401, and exactly every other token raises the AttributeError of evaluating `jwt.JWTError`, which PyJWT does not define |
| AuthMiddleware.FirstUsable | api/middleware/auth.py:102-106 | the API-token row used is the first active `user` token with this text, and none is used when no row qualifies |
| AuthMiddleware.Admit | api/middleware/auth.py:119-131 | a missing user is 401 "User not found", an inactive one 403 "User account is inactive", and only an active user is returned |
| AuthMiddleware.AuthStore.GetCurrentUser | api/middleware/auth.py:80-131 | a JWT with a subject is looked up directly and stamps nothing; otherwise the first usable API token is stamped with the current time and its user looked up, and without one the answer is 401; the final checks are those of `Admit` |
| AuthMiddleware.AuthStore.GetCurrentUserAsWritten | api/middleware/auth.py:80-131 | as written, a token that does not decode ends in a 500 with no API token looked up or stamped; every other token is handled as `GetCurrentUser` states |
| AuthMiddleware.AsWrittenApiTokensNeedAJwt | api/middleware/auth.py:88-106 | as written, the API-token lookup is reached exactly for an expired JWT or a decoded one without a subject; a token that does not decode raises the AttributeError |
| AuthMiddleware.GetCurrentActiveUser | api/middleware/auth.py:134-143 | an inactive user is refused with 403 "Inactive user" and an active one returned as is |
| AuthMiddleware.ActiveCheckNeverFires | api/middleware/auth.py:124-143 | on a user `get_current_user` admitted, `get_current_active_user` never refuses |
| AuthMiddleware.FirstFailure | api/middleware/auth.py:159-165 | the permission loop passes an empty list and never ends in the 401 of a missing user: a refusal is a 403 or the unpacking error (which permissions pass is stated by `FirstFailureIff` and `FirstFailureNamesFirst`) |
| AuthMiddleware.FirstFailureIff | api/middleware/auth.py:159-165 | the loop passes exactly when every required permission splits into resource and action and is held |
| AuthMiddleware.FirstFailureNamesFirst | api/middleware/auth.py:159-165 | a 403 names the first permission not held, and every permission before it is held |
| AuthMiddleware.CheckAll | api/middleware/auth.py:159-165 | the loop with its early exit ends in the first failure of the required list |
| AuthMiddleware.RequirePermissions | api/middleware/auth.py:146-170 | the user is `current_user`, else `user`; without either the answer is 401 "Authentication required", otherwise the first failure of the loop |
| AuthMiddleware.PermissionChecker | api/middleware/auth.py:173-187 | the same loop; on success the user itself is returned |
| AuthMiddleware.RoleLessUserPassesNothing | api/middleware/auth.py:159-165 | a user without a role passes only an empty requirement list |
| AuthRoutes.FirstIndex | api/routes/auth.py:123-124 | the row `.first()` returns is the first one satisfying the filter, and there is none exactly when no row does |
| AuthRoutes.IssueTokens | api/routes/auth.py:138-161 | every successful route returns a bearer pair: the access token carries `sub`, `email` and `type: access`, the refresh token only `sub` and `type: refresh`, with the account's public view |
| AuthRoutes.LoginDecision | api/routes/auth.py:120-135 | `login` accepts an account with the given email, or refuses with 401 "Incorrect email or password" or 403 "User account is inactive" |
| AuthRoutes.LoginRefusals | api/routes/auth.py:123-135 | an unknown email and a wrong password give the same 401, and the 403 for an inactive account comes only after the password check passes |
| AuthRoutes.Refresh | api/routes/auth.py:165-210 | every failure of the refresh route is 401 "Invalid refresh token"; success needs a decoded `type: refresh` whose subject is a known user, and returns a new pair for that user |
| AuthRoutes.AccessTokenCannotRefresh | api/routes/auth.py:169-175 | an access token, even a valid one of an existing user, is refused by the refresh route |
| AuthRoutes.RefreshTokenRefreshes | api/routes/auth.py:165-204 | a refresh token of an existing user is exchanged for a new pair for that same user |
| AuthRoutes.AccountStore.Register | api/routes/auth.py:55-117 | 400 when the email or the username is taken, 500 without a `default` tenant, both changing nothing; when the email and the username are free and a `default` tenant exists it succeeds, adding exactly one new active, unverified account in that tenant, with the `user` role when it exists |
| AuthRoutes.AccountStore.Login | api/routes/auth.py:120-162 | the refusals change nothing; success stamps `last_login_at` on that account only and returns its tokens |
| AuthRoutes.AccountStore.Logout | api/routes/auth.py:232-236 | logout only answers "Successfully logged out" and changes no table |
| BaseAgent.Kept | core/base_agent.py:24-31 | what `add` keeps is a suffix of the list: its last `max_messages` entries when it is longer, all of it otherwise, and all of it for a capacity of 0 |
| BaseAgent.AgentMemory.Add | core/base_agent.py:24-31 | the memory becomes the kept suffix of the old messages plus the new one, the new message is last, and a positive capacity is never exceeded |
| BaseAgent.AgentMemory.GetContext | core/base_agent.py:33-34 | role and content of every message, in insertion order, without timestamps |
| BaseAgent.AgentMemory.Clear | core/base_agent.py:36-37 | the memory is emptied |
| BaseAgent.FullMemoryDropsOldest | core/base_agent.py:30-31 | adding to a full memory drops exactly the oldest message |
| BaseAgent.ZeroCapacityKeepsAll | core/base_agent.py:30-31 | a capacity of 0 bounds nothing: `messages[-0:]` keeps every message |
| BaseAgent.Agent.constructor | core/base_agent.py:43-59 | the agent has a fresh empty default memory exactly when memory is enabled |
| BaseAgent.Agent.ResetMemory | core/base_agent.py:138-140 | the memory, when there is one, is emptied; without one nothing happens |
| BaseAgent.Clip | core/base_agent.py:133 | `content[:500]` is the prefix of at most 500 characters |
| BaseAgent.FormatItem | core/base_agent.py:129-135 | the i-th entry starts with `[i] ` |
| BaseAgent.Entries | core/base_agent.py:128-135 | one entry per item, numbered from 1 in list order |
| BaseAgent.FormatContext | core/base_agent.py:127-136 | the loop's result is the entries joined by newlines |
| BaseAgent.DictItemShowsClippedContent | core/base_agent.py:131-133 | a dict item is shown as its title (or `مستند i`) and its first 500 content characters |
| BaseAgent.AgentMemory.constructor | core/base_agent.py:20-22 | a new memory holds no message and keeps the given bound |
| BaseProcessing.DocumentMetadata.ToDict | document_processing/processors/base_processor.py:31-43 | the dict has the standard fields and the custom keys; a custom key overrides the standard field of the same name, and every other standard field is kept |
| BaseProcessing.ProcessedDocument.ToDict | document_processing/processors/base_processor.py:58-69 | the dict has exactly its eight keys, the metadata as its own dict, one entry per chunk, and `has_embeddings` exactly when embeddings are present |
| BaseProcessing.ProcessedDocument.GetSummary | document_processing/processors/base_processor.py:71-83 | the summary's counts are the lengths of the content, chunks, tables and images, with the id and file name of the document |
| BaseProcessing.FileType | document_processing/processors/base_processor.py:130-156 | the type is the table's entry for the lower-cased suffix, and `unknown` exactly when the suffix is not in the table |
| BaseProcessing.NoSuffixIsUnknown | document_processing/processors/base_processor.py:130-156 | a file name without a dot has type `unknown`, so only a processor listing `unknown` accepts it |
| BaseProcessing.UpperCaseExtension | document_processing/processors/base_processor.py:140 | `report.PDF` has type `pdf` |
| BaseProcessing.MarkdownNeedsMarkdownFormat | document_processing/processors/base_processor.py:110-156 | a `.md` file has type `markdown`, so a processor whose formats lack `markdown` never accepts it |
| BaseProcessing.ValidateFile | document_processing/processors/base_processor.py:197-240 | a path passes exactly when it is a regular file of 1 byte up to 100 MiB; the refusals come in the order missing, directory, too large, empty, each with its own message |
| BaseProcessing.DetectLanguage | document_processing/processors/base_processor.py:242-262 | under 10 characters after stripping there is no language and no detector call; otherwise the detector's answer on the first 1000 characters |
| BaseProcessing.ProcessBatch | document_processing/processors/base_processor.py:264-288 | the loop returns the documents of the paths that succeeded, in input order |
| BaseProcessing.SuccessesBounds | document_processing/processors/base_processor.py:264-288 | a batch has at most one document per path, each the result of some path, and exactly one per path when nothing fails |
| CoreAuth.WithExpiry | core/auth.py:42-58 | the claims are a copy of the data with `exp` and `type` set and every other key kept |
| CoreAuth.AccessClaims | core/auth.py:38-50 | an access token expires after a given non-zero delta, else after the configured number of days, and has `type: access` |
| CoreAuth.RefreshClaims | core/auth.py:52-58 | a refresh token expires after the configured number of days and has `type: refresh` |
| CoreAuth.AccessAndRefreshDiffer | core/auth.py:38-58 | an access and a refresh token from the same data carry the same keys and data claims, and their types differ |
| CoreAuth.DecodeToken | core/auth.py:61-75 | a token that decodes gives its claims; a JWT error gives 401 carrying the error's message |
| CoreAuth.GetCurrentUser | core/auth.py:104-145 | the checks run in order: decoding, `sub`, user lookup, status; only an existing `active` user is returned, and every refusal is 401 except 403 "User account is not active" |
| CoreAuth.GetCurrentActiveUser | core/auth.py:147-156 | the user is returned exactly when active |
| CoreAuth.ActiveCheckIsRedundant | core/auth.py:136-156 | after `get_current_user` the 400 "Inactive user" can never fire |
| CoreAuth.ForbiddenMeansKnownUser | core/auth.py:129-142 | a 403 implies a decodable token naming an existing user whose status is not active |
| CoreAuth.FirstMissing | core/auth.py:45-67 | the setting that fails is the first read that the settings object does not answer; there is none exactly when it answers every read |
| CoreAuth.AccessClaimsAsWritten | core/auth.py:38-50 | reading its settings from a given object, `create_access_token` makes a token exactly when the object answers every setting it reads (the lifetime in days only for a falsy delta, then the key and the algorithm), with the claims `AccessClaims` states; otherwise it raises AttributeError naming a setting the object lacks |
| CoreAuth.RefreshClaimsAsWritten | core/auth.py:52-58 | the same for `create_refresh_token`, which reads the lifetime in days, the key and the algorithm |
| CoreAuth.DecodeTokenAsWritten | core/auth.py:61-75 | `decode_token` gets as far as decoding exactly when the object answers `secret_key` and `algorithm`, and then answers as `DecodeToken`; a missing `secret_key` raises AttributeError naming it, which `except JWTError` does not catch |
| CoreAuth.GetCurrentUserAsWritten | core/auth.py:104-145 | an AttributeError while decoding ends the request in a 500; otherwise `get_current_user` answers as `GetCurrentUser` |
| CoreAuth.ModuleSettingsLackTokenSettings | core/config.py:113-166 | the top-level `Settings` object has none of `secret_key`, `algorithm`, `access_token_expire_days` and `refresh_token_expire_days` |
| CoreAuth.AsWrittenTokensNeverMade | core/auth.py:38-58 | as written, on the module's `settings`, creating an access token always raises, and creating a refresh token raises AttributeError for `refresh_token_expire_days` |
| CoreAuth.AsWrittenTokenServiceFails | core/auth.py:61-145 | as written, on the module's `settings`, `decode_token` raises AttributeError for `secret_key` on every token, and `get_current_user` answers every request with 500 |
| CoreAuth.SecuritySettingsServeTokens | core/config.py:67-74 | reading from `settings.security` instead, decoding, `get_current_user` and refresh tokens behave as the corrected members state, and an access token with a non-zero delta is made; with no delta the read of a lifetime in days still raises, because `SecuritySettings` keeps it in minutes |
| CoreAuth.RequireAdminAsWritten | core/auth.py:159-175 | as written, no user is 401 and every present user is 403 showing the Role's repr (or `None`), since a Role object never equals `"admin"` |
| CoreAuth.RoleCheckerAsWritten | core/auth.py:178-187 | as written, every user is refused with 403 listing the allowed roles, since a Role object is never in a list of strings |
| CoreAuth.AsWrittenGatesAdmitNobody | core/auth.py:159-187 | as written, neither `require_admin` nor any `require_roles` checker admits anybody |
| CoreAuth.RequireAdmin | core/auth.py:159-175 | corrected to compare the role's name: no user is 401, a role not named exactly `admin` is 403 showing the role, otherwise the same user |
| CoreAuth.RoleChecker | core/auth.py:178-187 | corrected to compare the role's name: the user passes exactly when their role is named by one of the allowed roles; otherwise 403 listing them joined by commas |
| CoreAuth.AdminIsSingleRoleCheck | core/auth.py:159-187 | for a present user, the corrected `require_admin` admits exactly whom `require_roles(["admin"])` admits, and both admit a user whose role row is named `admin` |
| CoreAuth.FirstWithEmail | core/auth.py:80 | the row `.first()` returns is the first with the email, and none exactly when no row has it |
| CoreAuth.AuthenticateUserAsWritten | core/auth.py:78-90 | as written, an unknown email returns `None` and a known one raises AttributeError for the missing `password` attribute; the table never changes |
| CoreAuth.AsWrittenAuthenticatesNobody | core/auth.py:78-90 | as written, no call ever returns a user, whatever the password |
| CoreAuth.UserTable.AuthenticateUser | core/auth.py:78-90 | corrected to the columns `password_hash` and `last_login_at`: an unknown email or a wrong password gives `None` and changes nothing; success stamps `last_login_at` on the first user with that email only and returns it |
| DifyConfig.ParseAgentType | core/dify_config.py:13-21 | a string parses to the agent type whose value it is, and fails exactly when it is none of the seven values |
| DifyConfig.TypeValuesExact | core/dify_config.py:13-21 | every type's value is listed and parses back to that type |
| DifyConfig.ParseEnvironment | core/dify_config.py:24-28 | a string parses to the environment whose value it is, and fails when no environment has it |
| DifyConfig.PostInit | core/dify_config.py:50-57 | an empty key raises only when the environment passed in is PRODUCTION; otherwise the key and URL are kept and the environment becomes the one `DIFY_ENV` names (default `development`), raising when it names none |
| DifyConfig.KeyCheckPrecedesEnvironment | core/dify_config.py:50-57 | since the key check comes before `DIFY_ENV` is read, the default construction with `DIFY_ENV=production` and no key succeeds as a production configuration without a key |
| DifyConfig.DefaultAgentConfig | core/dify_config.py:110-252 | each registered configuration has its own type, the OpenAI provider and a memory of 4000 tokens |
| DifyConfig.DefaultAgentsComplete | core/dify_config.py:110-252 | after loading, every agent type has a configuration of that type |
| DifyConfig.RegistryIsDefault | core/dify_config.py:110-252 | a registry holding the default configuration of every type is the loaded registry |
| DifyConfig.FullApiUrl | core/dify_config.py:270-274 | the URL is no longer than its parts plus one and always has a slash with no other slash next to it |
| DifyConfig.FullApiUrlOfCleanParts | core/dify_config.py:270-274 | without stray slashes the URL is the base, one slash and the endpoint |
| DifyConfig.FullApiUrlIgnoresExtraSlashes | core/dify_config.py:270-274 | a slash more at the end of the base or at the start of the endpoint gives the same URL |
| DifyConfig.RegisteredValues | core/dify_config.py:258-260 | the listed values are exactly those of the registered types |
| DifyConfig.Config.constructor | core/dify_config.py:104-108 | a new configuration holds the API settings it built and the default registry |
| DifyConfig.Config.LoadAgentConfigs | core/dify_config.py:110-252 | the seven assignments leave exactly the default registry and the API settings untouched |
| DifyConfig.Config.GetAgentConfig | core/dify_config.py:254-256 | a configuration is returned exactly for a registered type's value, and it is that type's |
| DifyConfig.Config.GetAllAgentTypes | core/dify_config.py:258-260 | the listed strings are exactly the values of the registered types |
| DifyConfig.Config.ApiHeaders | core/dify_config.py:262-268 | exactly the three headers, a `Bearer`-prefixed authorization and JSON content type |
| DifyConfig.FreshConfigAnswersEveryType | core/dify_config.py:254-256 | a fresh configuration answers for every agent type value with that type's configuration, and for nothing else |
| DifyConfig.EveryTypeRegistered | core/dify_config.py:258-260 | when every type of a list is registered, the listed strings are those types' values, one per type, in the list's order |
| DifyConfig.FreshConfigListsInRegistrationOrder | core/dify_config.py:110-260 | a freshly loaded configuration lists the seven agent types in the order `_load_agent_configs` registers them |
| DifyConfig.BearerHeaderCarriesKey | core/dify_config.py:262-268 | the authorization header is `Bearer ` followed by the key itself |
| DifyConfig.UnkeyedDefaultIsNotConfigured | core/dify_config.py:276-279 | without `DIFY_API_KEY` the default configuration is never configured |
| DifyConfig.ConfigSlot.GetDifyConfig | core/dify_config.py:300-305 | the stored configuration is returned; without one a new one is built and stored, unless building it raises |
| DifyConfig.ConfigSlot.Reset | core/dify_config.py:308-311 | afterwards no configuration is stored |
| DocumentService.StrippedNonBlank | api/services/document_processor.py:32 | the kept parts are stripped, non-empty and no more than the parts |
| DocumentService.SlicesBounded | api/services/document_processor.py:50-54 | every slice of an over-long line is at most a chunk long |
| DocumentService.FixedSlicesBounded | api/services/document_processor.py:62-67 | every fallback slice is at most a chunk long |
| DocumentService.AppendSlices | api/services/document_processor.py:49-54 | the slice loop appends exactly the stripped slices of the line |
| DocumentService.ChunkLines | api/services/document_processor.py:40-57 | the line loop leaves the chunks and the pending `cur` that the line fold describes |
| DocumentService.AppendFixedSlices | api/services/document_processor.py:62-68 | the fallback loop yields exactly the non-empty stripped slices of the text |
| DocumentService.ChunkText | api/services/document_processor.py:30-70 | `_chunk_text` returns the paragraph chunks, or the fallback slices when there are none and the text is not empty |
| DocumentService.LineStepBounded | api/services/document_processor.py:42-57 | one round of the line loop keeps every chunk and the pending `cur` within a chunk |
| DocumentService.LinesFoldBounded | api/services/document_processor.py:42-59 | the whole line loop keeps every chunk and `cur` within a chunk |
| DocumentService.ParagraphsFoldBounded | api/services/document_processor.py:35-59 | the paragraph loop emits only chunks within the chunk size |
| DocumentService.ChunksBounded | api/services/document_processor.py:30-70 | no chunk is longer than `chunk_size` |
| DocumentService.ShortParagraphsKept | api/services/document_processor.py:35-37 | when every paragraph fits, the chunks are exactly the paragraphs, in order |
| DocumentService.BlankTextGivesNothing | api/services/document_processor.py:30-70 | empty or whitespace-only text gives no chunk at all |
| DocumentService.WhitespaceSliceGivesEmptyChunk | api/services/document_processor.py:49-54 | a run of spaces as long as a chunk inside an over-long line yields an empty chunk, since these slices are stripped but not filtered |
| MemoryStore.Without | knowledge_base/vector_store/memory_store.py:215-217 | taking an id out of an index's order keeps every other id and keeps the order duplicate-free |
| MemoryStore.Index.Put | knowledge_base/vector_store/memory_store.py:86 | `index[doc_id] = doc` stores the document; a new id goes last and an existing one keeps its place |
| MemoryStore.Index.Discard | knowledge_base/vector_store/memory_store.py:216-217 | `del index[doc_id]` removes the id and keeps the others in order |
| MemoryStore.Index.Items | knowledge_base/vector_store/memory_store.py:154 | the index's documents in insertion order |
| MemoryStore.ApplyFilters | knowledge_base/vector_store/memory_store.py:193-200 | the early-exit loop passes exactly when every filter key is in the metadata with an equal value; no filter always passes |
| MemoryStore.Scored | knowledge_base/vector_store/memory_store.py:151-170 | the scored hits are documents of the index that pass the filters, at most one per document |
| MemoryStore.Store.Add | knowledge_base/vector_store/memory_store.py:49-93 | the document (with `{}` metadata when none is given) is stored by id in the table and in the named index, created when missing; the other indexes are untouched |
| MemoryStore.Store.AddAll | knowledge_base/vector_store/memory_store.py:95-123 | adding a batch keeps the store well formed |
| MemoryStore.Store.GetDocument | knowledge_base/vector_store/memory_store.py:202-204 | the stored document of the id, and none exactly when the id is not stored |
| MemoryStore.Store.GetStats | knowledge_base/vector_store/memory_store.py:222-230 | the total is the table's size, and there is one size per index, that index's size |
| MemoryStore.InitialStore | knowledge_base/vector_store/memory_store.py:38-47 | a new store is well formed, with no documents and three empty indexes |
| MemoryStore.AddValid | knowledge_base/vector_store/memory_store.py:49-93 | adding keeps every stored document held, as it is, by some index |
| MemoryStore.DeleteValid | knowledge_base/vector_store/memory_store.py:206-220 | deleting keeps the store well formed |
| MemoryStore.ClearIndexValid | knowledge_base/vector_store/memory_store.py:232-241 | clearing an index keeps the store well formed |
| MemoryStore.DeleteRemovesEverywhere | knowledge_base/vector_store/memory_store.py:206-220 | deleting a stored id removes it from the table and every index and leaves everything else as it was |
| MemoryStore.AddCountsOne | knowledge_base/vector_store/memory_store.py:49-93 | adding a new id grows the table by one |
| MemoryStore.PutThenDiscard | knowledge_base/vector_store/memory_store.py:86-217 | putting a new id into an index and removing it again gives back the index |
| MemoryStore.AddThenDeleteRestores | knowledge_base/vector_store/memory_store.py:49-220 | deleting a new id right after adding it gives back the store |
| MemoryStore.ClearIndexEffect | knowledge_base/vector_store/memory_store.py:232-241 | clearing takes the index's ids out of the table and empties the index; other indexes are untouched |
| MemoryStore.SharedIdOutlivesClear | knowledge_base/vector_store/memory_store.py:232-241 | an id added to two indexes leaves the table when one is cleared, yet the other index still holds it and search there still finds it |
| MemoryStore.SearchShape | knowledge_base/vector_store/memory_store.py:125-178 | search gives at most `top_k` results, best score first, each a filter-passing document of the index; no scored document left out scores above a kept one |
| MemoryStore.MemoryVectorStore.constructor | knowledge_base/vector_store/memory_store.py:38-47 | the new store is the initial store |
| MemoryStore.MemoryVectorStore.AddDocument | knowledge_base/vector_store/memory_store.py:49-93 | reports success and the state becomes the added store |
| MemoryStore.MemoryVectorStore.AddDocumentsBatch | knowledge_base/vector_store/memory_store.py:95-123 | every document is added, in order, and the count is the batch size |
| MemoryStore.MemoryVectorStore.DeleteDocument | knowledge_base/vector_store/memory_store.py:206-220 | false and no change for an unknown id; otherwise the id is removed everywhere |
| MemoryStore.MemoryVectorStore.ClearIndex | knowledge_base/vector_store/memory_store.py:232-241 | the state becomes the cleared store |
| MemoryStore.MemoryVectorStore.DropFromTable | knowledge_base/vector_store/memory_store.py:236-238 | the deletion loop removes exactly the listed ids from the table |
| MemoryStore.MemoryVectorStore.Search | knowledge_base/vector_store/memory_store.py:125-178 | the similarity loop, the stable sort and the cut give the specified search |
| VectorLists.Zipped | knowledge_base/vector_store/memory_vector_store.py:38-46 | `zip` stops at the shortest of the four inputs |
| VectorLists.ZippedAt | knowledge_base/vector_store/memory_vector_store.py:38-46 | entry i of the zip holds the i-th vector, text and id, and the i-th metadata with `added_at` set |
| VectorLists.IdsFor | knowledge_base/vector_store/memory_vector_store.py:33-35 | the given ids, or one fresh uuid per text |
| VectorLists.Scored | knowledge_base/vector_store/memory_vector_store.py:67-82 | one hit per entry whose metadata passes the filter, and only those, at most one per entry |
| VectorLists.SearchShape | knowledge_base/vector_store/memory_vector_store.py:50-97 | results are in descending score order, at most `top_k`, each a stored entry passing the filter; no candidate left out scores above a kept one |
| VectorLists.SearchKeepsEveryMatch | knowledge_base/vector_store/memory_vector_store.py:67-88 | with `top_k` at least the store size nothing passing the filter is lost; a filter asking for `None` keeps entries lacking the key |
| VectorLists.StatsOf | knowledge_base/vector_store/memory_vector_store.py:122-128 | the count of entries, the first vector's length (0 when empty) and storage type `memory` |
| VectorLists.FirstIndex | knowledge_base/vector_store/memory_vector_store.py:105 | `ids.index(id)` is the first position holding the id |
| VectorLists.IndicesAsWritten | knowledge_base/vector_store/memory_vector_store.py:101-107 | the positions collected as written lie within the list, one per requested present id, repeats included |
| VectorLists.Indices | knowledge_base/vector_store/memory_vector_store.py:101-107 | the corrected positions lie within the list |
| VectorLists.IndicesShape | knowledge_base/vector_store/memory_vector_store.py:101-107 | the corrected positions are distinct and are exactly the first positions of the requested ids that are present |
| VectorLists.RemoveKeep | knowledge_base/vector_store/memory_vector_store.py:109-113 | deleting a position below every one removed so far is keeping one position fewer |
| VectorLists.RemoveEachKeep | knowledge_base/vector_store/memory_vector_store.py:109-113 | deleting strictly descending positions one by one keeps exactly the other entries, in order |
| VectorLists.SortedPositions | knowledge_base/vector_store/memory_vector_store.py:109 | sorting distinct positions in reverse makes them strictly descending with the same elements |
| VectorLists.DeleteRemovesFirstOccurrences | knowledge_base/vector_store/memory_vector_store.py:99-120 | corrected `delete` never fails and removes exactly the first entry holding each requested present id, keeping the rest in order |
| VectorLists.DistinctRequestAgrees | knowledge_base/vector_store/memory_vector_store.py:99-120 | for requests without a repeated id the code as written behaves as the corrected one |
| VectorLists.RepeatedIdDeletesBystander | knowledge_base/vector_store/memory_vector_store.py:101-113 | as written, deleting `[a, a]` from ids `a`, `b` deletes `b` too, where the corrected version deletes only `a` |
| VectorLists.RepeatedIdReportsFailure | knowledge_base/vector_store/memory_vector_store.py:101-120 | as written, deleting `[a, a]` from the single id `a` reports False although `a` is gone |
| VectorLists.MemoryVectorStore.constructor | knowledge_base/vector_store/memory_vector_store.py:17-22 | a new store holds four empty lists |
| VectorLists.MemoryVectorStore.AddEmbeddings | knowledge_base/vector_store/memory_vector_store.py:24-48 | appends the zipped inputs with `added_at` stamped, keeps the lists of equal length, and returns the ids, given or generated |
| VectorLists.MemoryVectorStore.Search | knowledge_base/vector_store/memory_vector_store.py:50-97 | the scoring loop, stable sort and cut give the specified results |
| VectorLists.MemoryVectorStore.Delete | knowledge_base/vector_store/memory_vector_store.py:99-120 | the lists stay of equal length and end as the corrected deletion specifies |
| VectorLists.MemoryVectorStore.GetStats | knowledge_base/vector_store/memory_vector_store.py:122-128 | the statistics of the stored entries |
| VectorLists.MemoryVectorStore.Clear | knowledge_base/vector_store/memory_vector_store.py:130-136 | all four lists are emptied |
| HybridSearch.KeywordsShape | knowledge_base/retrieval/hybrid_search.py:159-174 | every keyword is a word of the lower-cased, depunctuated text, longer than two characters and not a stop word, and no such word is dropped |
| HybridSearch.MatchCount | knowledge_base/retrieval/hybrid_search.py:181 | the number of matches never exceeds the number of keywords |
| HybridSearch.MatchCountMeaning | knowledge_base/retrieval/hybrid_search.py:181 | no match exactly when no keyword occurs, a full count exactly when every keyword does |
| HybridSearch.KeywordScore | knowledge_base/retrieval/hybrid_search.py:176-189 | the score lies between 0 and 1 and is 0 without keywords |
| HybridSearch.KeywordScoreMeaning | knowledge_base/retrieval/hybrid_search.py:176-189 | the score is positive exactly when some keyword occurs in the lower-cased content, and 1 exactly when all do |
| HybridSearch.KeywordCandidates | knowledge_base/retrieval/hybrid_search.py:135-153 | one keyword result per document that passes the filters with a positive score, and only those, in index order |
| HybridSearch.KeywordSearch | knowledge_base/retrieval/hybrid_search.py:120-157 | the keyword loop, sort and cut give the specified keyword results |
| HybridSearch.KeywordSearchShape | knowledge_base/retrieval/hybrid_search.py:120-157 | keyword results are keyword-tagged, filter-passing, positively scored documents of the index, best first, at most `top_k`; no candidate left out scores above a kept one |
| HybridSearch.VectorSearch | knowledge_base/retrieval/hybrid_search.py:94-118 | the tagging loop gives the store's results tagged as vector results |
| HybridSearch.TagHits | knowledge_base/retrieval/hybrid_search.py:112-116 | the loop turns each store hit, in order, into a vector result carrying its weighted score |
| HybridSearch.VectorSearchShape | knowledge_base/retrieval/hybrid_search.py:94-118 | vector results are vector-tagged, filter-passing documents of the index, best first, at most `top_k` |
| HybridSearch.Group | knowledge_base/retrieval/hybrid_search.py:196-207 | the dict built by the merge loop lists each of its ids once |
| HybridSearch.Dedup | knowledge_base/retrieval/hybrid_search.py:206-207 | the search types are kept once each, nothing else added |
| HybridSearch.GroupKeys | knowledge_base/retrieval/hybrid_search.py:196-207 | after the merge loop there is one entry per input id and no other |
| HybridSearch.GroupEntry | knowledge_base/retrieval/hybrid_search.py:196-207 | an id's entry holds one of its results, the sum of its weighted scores and its distinct search types in first-seen order |
| HybridSearch.FirstIndexFor | knowledge_base/retrieval/hybrid_search.py:199-200 | the position of an id's first result: it has the id and no earlier result does, and there is none exactly when no result has the id |
| HybridSearch.GroupFirst | knowledge_base/retrieval/hybrid_search.py:199-202 | an id's entry holds the first result seen for it, since `result.copy()` is taken only for a new id |
| HybridSearch.MergedFirst | knowledge_base/retrieval/hybrid_search.py:191-213 | every merged entry holds the first result seen for its id |
| HybridSearch.SumForAbsent | knowledge_base/retrieval/hybrid_search.py:196-207 | an id with no results has sum 0 and no search types |
| HybridSearch.MergeShape | knowledge_base/retrieval/hybrid_search.py:191-213 | the merged list has one entry per input id, each holding the first result seen for that id, the sum of its weighted scores and its search types once each, best combined score first |
| HybridSearch.MergedIdsDistinct | knowledge_base/retrieval/hybrid_search.py:191-213 | no two merged entries share a document id |
| HybridSearch.MergedCoversInputs | knowledge_base/retrieval/hybrid_search.py:191-213 | every input id has a merged entry |
| HybridSearch.MergedEntries | knowledge_base/retrieval/hybrid_search.py:191-213 | each merged entry is the entry of one input id |
| HybridSearch.MergeResults | knowledge_base/retrieval/hybrid_search.py:191-213 | the in-place merge loop, listing and sort give the specified merge |
| HybridSearch.Search | knowledge_base/retrieval/hybrid_search.py:44-92 | each enabled search asks for `2 * top_k`, the results are merged and the best `top_k` returned |
| HybridSearch.TopMerged | knowledge_base/retrieval/hybrid_search.py:89 | the best `top_k` merged entries are in descending combined score, one per id, each search type taken from an input |
| HybridSearch.PoolTypes | knowledge_base/retrieval/hybrid_search.py:70-84 | only the enabled searches contribute results |
| HybridSearch.HybridShape | knowledge_base/retrieval/hybrid_search.py:44-92 | at most `top_k` entries, best first, one per document, each found by an enabled search; with both searches off there is nothing |
| HybridSearch.TypesComeFromResults | knowledge_base/retrieval/hybrid_search.py:206-207 | a listed search type is the type of one of that id's results |
| MultilingualSplitting.NewMultilingualSplitter | document_processing/chunking/multilingual_splitter.py:16-37 | the splitter keeps the given chunk size and overlap and splits on the Arabic-aware separator list (paragraph, line, sentence marks, commas, the conjunctions and/or/then, space, character) |
| MultilingualSplitting.DefaultSizesTerminate | document_processing/chunking/multilingual_splitter.py:16 | with the default sizes 1000 and 200 the forced split advances on every step, backing off 50 characters |
| MultilingualSplitting.NormalizeChar | document_processing/chunking/multilingual_splitter.py:57-60 | no hamza alef form and no teh marbuta survives the letter unification |
| MultilingualSplitting.NormalizeLetters | document_processing/chunking/multilingual_splitter.py:57-60 | the unification keeps the length and maps each character on its own |
| MultilingualSplitting.DropDiacritics | document_processing/chunking/multilingual_splitter.py:63-64 | removing the diacritics never lengthens the text, leaves no diacritic behind, keeps only characters of the input and leaves diacritic-free text unchanged |
| MultilingualSplitting.CleanedShape | document_processing/chunking/multilingual_splitter.py:54-69 | cleaned text holds no hamza alef, teh marbuta or diacritic, every whitespace run is a single space and there is none at either end |
| MultilingualSplitting.NormalizeFixed | document_processing/chunking/multilingual_splitter.py:57-60 | the letter unification leaves text without those letters unchanged |
| MultilingualSplitting.CleanIdempotent | document_processing/chunking/multilingual_splitter.py:54-69 | cleaning cleaned text changes nothing |
| MultilingualSplitting.CutConjunctionShape | document_processing/chunking/multilingual_splitter.py:78-80 | one round of the conjunction loop keeps a stripped non-empty chunk stripped and non-empty and never lengthens it |
| MultilingualSplitting.DropConjunctionsShape | document_processing/chunking/multilingual_splitter.py:77-82 | the whole conjunction loop keeps a stripped non-empty chunk stripped and non-empty and never lengthens it |
| MultilingualSplitting.PostProcessKeepsContent | document_processing/chunking/multilingual_splitter.py:71-82 | a chunk that is not blank stays non-empty and stripped after post-processing and is never longer than before |
| MultilingualSplitting.LeadingAndIsCut | document_processing/chunking/multilingual_splitter.py:79-80 | a chunk opening with the conjunction "and" and a space loses the conjunction |
| MultilingualSplitting.SplitText | document_processing/chunking/multilingual_splitter.py:40-52 | the chunks are exactly the base splitter's chunks of the cleaned text, each post-processed, in order; when the cleaned text exceeds the chunk size every chunk is stripped |
| MultilingualSplitting.ArabicCount | document_processing/chunking/multilingual_splitter.py:94 | the count of characters in U+0600..U+06FF never exceeds the length |
| MultilingualSplitting.EnglishCount | document_processing/chunking/multilingual_splitter.py:97 | the count of ASCII letters never exceeds the length |
| MultilingualSplitting.CountsDisjoint | document_processing/chunking/multilingual_splitter.py:91-97 | Arabic and English characters together never outnumber the characters of the text |
| MultilingualSplitting.GetLanguageStats | document_processing/chunking/multilingual_splitter.py:89-105 | totals and counts are those of the text, the two counts fit in the total, Arabic is the primary language exactly when it has strictly more characters, and empty text has zero percentages |
| RateLimit.Recent | api/middleware/rate_limit.py:22-25 | the pruned list holds exactly the entries younger than one minute, each taken from the stored list, and is never longer |
| RateLimit.RecentIdempotent | api/middleware/rate_limit.py:22-25 | pruning a pruned list again at the same moment removes nothing more |
| RateLimit.RateLimiter.constructor | api/middleware/rate_limit.py:11-14 | the limiter keeps the quota and starts with no client recorded |
| RateLimit.RateLimiter.Check | api/middleware/rate_limit.py:16-35 | the client's list is pruned first; a pruned list already at the quota gets 429 "Too many requests. Please try again later." and keeps the pruned list, otherwise the request time is appended; no other client's list changes, and at most the quota of entries per client is kept |
| RateLimit.ModuleLimiter | api/middleware/rate_limit.py:38 | the application's limiter allows 100 requests a minute and starts empty |
| RateLimit.CheckedListIsRecent | api/middleware/rate_limit.py:22-35 | after a check every entry of that client is within a minute of the check |
| RateLimit.BurstFillsQuota | api/middleware/rate_limit.py:22-28 | requests recorded in the same instant all survive pruning and all count against the quota |
| RoleAdmin.LinksFor | api/routes/admin/roles.py:246-254 | the links added are one per requested id found in the catalogue, for that role, and only for requested ids; unknown ids are skipped |
| RoleAdmin.WithoutRole | api/routes/admin/roles.py:312-314 | a link survives exactly when it belongs to another role |
| RoleAdmin.RemoveFirst | api/routes/admin/roles.py:441-453 | deleting a present pair removes exactly one row and adds none; an absent pair leaves the relation as it is |
| RoleAdmin.RemoveAppended | api/routes/admin/roles.py:392-399 | removing a newly appended pair gives the earlier relation back |
| RoleAdmin.PermissionsOf | api/routes/admin/roles.py:392-399 | the permissions of a role come from its links only, one per link at most |
| RoleAdmin.AssignGrants | api/routes/admin/roles.py:392-399 | after a pair is assigned, users of that role hold that permission's resource and action |
| RoleAdmin.Page | api/routes/admin/roles.py:95 | a page never holds more than the limit |
| RoleAdmin.HasMoreIffRowsRemain | api/routes/admin/roles.py:133 | has_more is set exactly when rows remain after the returned page |
| RoleAdmin.GroupNonEmptyIff | api/routes/admin/roles.py:493-502 | a resource has a non-empty group exactly when a listed permission has that resource |
| RoleAdmin.GroupStep | api/routes/admin/roles.py:494-502 | each step of the grouping loop keeps the groups equal to the groups of the permissions read so far |
| RoleAdmin.GroupByResource | api/routes/admin/roles.py:492-502 | there is one group per resource that occurs, holding that resource's permissions in query order |
| RoleAdmin.OfResourceMember | api/routes/admin/roles.py:493-502 | a permission is in a resource's group exactly when it is listed with that resource |
| RoleAdmin.EachInItsOwnGroup | api/routes/admin/roles.py:493-502 | each listed permission sits in the group of its own resource and in no other |
| RoleAdmin.RoleStore.constructor | api/routes/admin/roles.py:217-242 | the store starts from the given roles and catalogue with no links, and every link names a role and a permission that exist |
| RoleAdmin.RoleStore.AddLinks | api/routes/admin/roles.py:246-254 | the loop appends exactly the links for the requested ids found in the catalogue, keeping every link valid |
| RoleAdmin.RoleStore.CreateRoleAsWritten | api/routes/admin/roles.py:226-274 | as written, the call always fails: 400 exactly when the name is taken, otherwise the 500 "Failed to create role: " with the database's error, because the Role row lacks the NOT NULL `display_name`; nothing is stored |
| RoleAdmin.RoleStore.CreateRole | api/routes/admin/roles.py:226-274 | corrected to supply `display_name`: a taken name gives 400 and changes nothing; otherwise the role is stored with is_system false, only known permission ids are linked, yet the count reported is the number of ids requested; a null id list fails with 500 after the role was stored |
| RoleAdmin.RoleStore.UpdateRole | api/routes/admin/roles.py:291-328 | an unknown role gives 404 and a system role 400 "Cannot modify system roles", changing nothing; otherwise a given description replaces the old one, a given id list replaces the role's links by those of known ids, and the update time is set |
| RoleAdmin.RoleStore.AssignPermission | api/routes/admin/roles.py:364-408 | unknown role 404, unknown permission 404, pair already present 400, each leaving the relation unchanged; otherwise exactly that pair is appended and the permission's name returned |
| RoleAdmin.RoleStore.RemovePermission | api/routes/admin/roles.py:434-453 | unknown role 404, pair absent 404 "Permission not assigned to this role", each changing nothing; otherwise exactly that pair is deleted |
| RoleAdmin.RoleStore.AssignThenRemove | api/routes/admin/roles.py:392-453 | assigning a new pair and then removing it restores the relation |
| Router.FirstAvailable | orchestration/patterns/router_pattern.py:62-68 | the agent chosen is available, belongs to the category and precedes every other available agent of it; there is none exactly when no agent of the category is available |
| Router.ScanKeywords | orchestration/patterns/router_pattern.py:59-68 | a category routes exactly when one of its keywords occurs in the lower-cased query and one of its agents is available, and then to its first available agent |
| Router.ScanRulesFirstUsable | orchestration/patterns/router_pattern.py:57-68 | a keyword route comes from the first category, in rule order, that has a matching keyword and an available agent; with no such category there is no keyword route |
| Router.Route | orchestration/patterns/router_pattern.py:43-81 | the agent returned is always available; a keyword route wins, then the first available general agent, then the first available agent; an error "No agents available for routing" is raised exactly when no agent is available |
| Router.Matched | orchestration/patterns/router_pattern.py:103-106 | the matched keywords are exactly the category's keywords occurring in the lower-cased query |
| Router.Detected | orchestration/patterns/router_pattern.py:102-111 | each reported category has a non-empty list of matched keywords, and every category with a match is reported |
| Router.KeywordlessCategoryNeverReported | orchestration/patterns/router_pattern.py:35-38 | a category without keywords is never reported |
| Router.IsQuestion | orchestration/patterns/router_pattern.py:115-122 | the text is a question exactly when one of the indicators occurs in it, lower-cased |
| Router.AnalyzeQuery | orchestration/patterns/router_pattern.py:83-113 | the analysis reports the length, the number of whitespace-separated words, "ar" exactly when an Arabic character occurs, the detected categories and the question flag |
| Router.GeneralNeverDetected | orchestration/patterns/router_pattern.py:35-38 | the general category never appears among the detected categories |
| Tenancy.ActiveById | api/middleware/tenant.py:25-28 | the tenant found is the first active row with that id; none is found exactly when no active row has it |
| Tenancy.ActiveBySlug | api/middleware/tenant.py:37-40 | the tenant found is an active row with that slug; none is found exactly when no active row has it |
| Tenancy.FromHeader | api/middleware/tenant.py:23-30 | the header method resolves only through a non-empty X-Tenant-ID header, to the active tenant with that id |
| Tenancy.FromSubdomain | api/middleware/tenant.py:33-42 | the subdomain method resolves only for a Host of more than two dot-separated parts, to the active tenant whose slug is the first part |
| Tenancy.FromPath | api/middleware/tenant.py:45-53 | the path method resolves only when the third path segment is "tenants", to the active tenant named by the fourth |
| Tenancy.TenantFromRequest | api/middleware/tenant.py:20-55 | the tenant resolved is active and comes from the header, else the subdomain, else the path, each method falling through when its lookup finds nothing |
| Tenancy.NoneIffAllMethodsFail | api/middleware/tenant.py:20-55 | no tenant is resolved exactly when all three methods find nothing |
| Tenancy.ShortHostIsNoSubdomain | api/middleware/tenant.py:34-35 | a host with at most one dot never selects a tenant by subdomain |
| Tenancy.TenantPathNamesTenant | api/middleware/tenant.py:45-53 | a path /prefix/tenants/id names the active tenant with that id |
| Tenancy.CurrentTenant | api/middleware/tenant.py:58-85 | a resolved tenant other than the user's gives 403 "Access denied to this tenant"; with none resolved and the user's tenant not active, 404 "Tenant not found or inactive"; any tenant granted is the user's own and active |
| Tenancy.OwnTenantIsGranted | api/middleware/tenant.py:64-85 | a user whose tenant is active receives it whenever the request resolves no other tenant |
| TextSplitting.Chars | document_processing/chunking/text_splitter.py:79 | splitting into characters gives one one-character string per character, in order |
| TextSplitting.JoinChars | document_processing/chunking/text_splitter.py:79 | the characters joined again give the text back |
| TextSplitting.ChosenSeparator | document_processing/chunking/text_splitter.py:77-84 | the separator chosen is the first that is empty or occurs in the text; none is chosen only when no separator is empty and none occurs |
| TextSplitting.SplitBySeparators | document_processing/chunking/text_splitter.py:75-84 | with no usable separator the text comes back as the only piece |
| TextSplitting.SplitBySeparatorsJoins | document_processing/chunking/text_splitter.py:75-84 | the pieces joined with the chosen separator give the text back |
| TextSplitting.TextSplitter.constructor | document_processing/chunking/text_splitter.py:13-34 | the splitter keeps the chunk size and overlap, and a missing or empty separator list means the default list |
| TextSplitting.TextSplitter.BackOffBounds | document_processing/chunking/text_splitter.py:95 | a forced cut moves back at most 50 characters, and at most a quarter of the chunk size |
| TextSplitting.TextSplitter.SpaceBeforeFound | document_processing/chunking/text_splitter.py:95-98 | the back-off loop either keeps the cut or stops on a space within the back-off |
| TextSplitting.TextSplitter.CutPointBounds | document_processing/chunking/text_splitter.py:92-98 | a forced cut lies at most the back-off less one before a full chunk and never after it, and a cut that moved back lands on a space |
| TextSplitting.TextSplitter.FirstPieceBounds | document_processing/chunking/text_splitter.py:91-101 | the first forced piece is at most a chunk long and not empty |
| TextSplitting.TextSplitter.PiecesBounded | document_processing/chunking/text_splitter.py:86-103 | no forced piece is longer than a chunk and none is empty |
| TextSplitting.TextSplitter.PiecesStep | document_processing/chunking/text_splitter.py:91-101 | each round emits the piece up to its cut and starts the next chunk_overlap characters before the cut, strictly further on |
| TextSplitting.TextSplitter.OverlapStalls | document_processing/chunking/text_splitter.py:91-101 | with chunk_overlap at least chunk_size a forced round never advances its start, so the loop does not end |
| TextSplitting.TextSplitter.PiecesPartition | document_processing/chunking/text_splitter.py:86-103 | without overlap the forced pieces joined give the text back |
| TextSplitting.TextSplitter.CutAt | document_processing/chunking/text_splitter.py:92-98 | the loop computes the cut point of the round |
| TextSplitting.TextSplitter.ForceSplit | document_processing/chunking/text_splitter.py:86-103 | the loop returns exactly the forced pieces of the text from its start |
| TextSplitting.TextSplitter.Absorb | document_processing/chunking/text_splitter.py:46-65 | a piece longer than a chunk flushes the pending chunk and is cut by force; a piece that would overflow flushes it and starts the next chunk behind the last chunk_overlap characters of the last chunk; any other piece is appended to the pending chunk |
| TextSplitting.TextSplitter.AbsorbAllSnoc | document_processing/chunking/text_splitter.py:46-65 | merging one more piece is one more round of the merge loop |
| TextSplitting.TextSplitter.NonBlank | document_processing/chunking/text_splitter.py:70 | the chunks kept are exactly the ones that are not blank |
| TextSplitting.TextSplitter.SplitTextSpec | document_processing/chunking/text_splitter.py:36-73 | empty text gives no chunk, text that fits one chunk comes back whole, and a longer text gives no blank chunk |
| TextSplitting.TextSplitter.MergePiece | document_processing/chunking/text_splitter.py:46-65 | the loop body performs exactly one round of the merge |
| TextSplitting.TextSplitter.SplitText | document_processing/chunking/text_splitter.py:36-73 | the loop returns the chunks of the specification |
| TextSplitting.TextSplitter.AbsorbBounded | document_processing/chunking/text_splitter.py:46-65 | a round of the merge keeps every chunk and the pending text within chunk_size plus chunk_overlap characters |
| TextSplitting.TextSplitter.ChunksBounded | document_processing/chunking/text_splitter.py:36-73 | no chunk is longer than chunk_size plus chunk_overlap |
| Workflow.NewStep | agents/workflow.py:29-48 | a new step is PENDING with no result and no error |
| Workflow.FirstSuccessFrom | agents/workflow.py:89-114 | the attempt found is the first successful one in range; none is found exactly when every attempt in range fails |
| Workflow.AttemptsFrom | agents/workflow.py:89-125 | the attempts from a given one leave the step COMPLETED exactly when they succeed, FAILED otherwise, and change only its status, result and error; the results are either unchanged or differ only under the step's name, which then holds the step's result |
| Workflow.AttemptsWithoutRaisingCallbacks | agents/workflow.py:89-125 | when no success callback raises, the attempts succeed exactly when one of them does, storing the first successful result; when all fail they leave the results untouched and record the last error |
| Workflow.StepRun | agents/workflow.py:72-129 | with no attempt the step stays RUNNING and fails; otherwise it ends COMPLETED with its result stored under its name, or FAILED, and no other result changes; when no success callback raises, it succeeds exactly when one of its first retries attempts succeeds, the first successful attempt's result is stored and the error of the attempt before it kept, and when all attempts fail the results and the step's result are unchanged and the last error is kept |
| Workflow.RaisingCallbackKeepsResult | agents/workflow.py:104-125 | a success callback that raises on the first attempt fails it but leaves its result stored: with one attempt the step ends FAILED holding that result, with more the next attempt runs on results that hold it |
| Workflow.AttemptsFromAgrees | agents/workflow.py:89 | two runners that agree on the first retries attempts, whatever results they see, give the same outcome from any attempt on |
| Workflow.OnlyRetriesAttemptsConsulted | agents/workflow.py:89 | attempts beyond the step's retries are never made: runners that agree on the first retries attempts, on any results, give the same step run |
| Workflow.RunFrom | agents/workflow.py:147-154 | steps run in order and keep their names; the first failing step stops the run and leaves the later steps as they were; with no failure every step is COMPLETED; results are only ever added |
| Workflow.LaterStepsStayPending | agents/workflow.py:147-154 | when a run of new steps fails, every step after the failing one is still PENDING |
| Workflow.AgentWorkflow.constructor | agents/workflow.py:56-64 | a new workflow is PENDING, with no steps, no results and no timestamps |
| Workflow.AgentWorkflow.AddStep | agents/workflow.py:67-70 | the step is appended and the same workflow returned |
| Workflow.AgentWorkflow.ExecuteStep | agents/workflow.py:72-129 | the loop leaves the step and the results as the step run states, including a result stored before its success callback raised, and no other step changes |
| Workflow.AgentWorkflow.Execute | agents/workflow.py:131-161 | the start is stamped, the steps and results become those of the run; a failure makes the workflow FAILED without an end stamp, otherwise it is COMPLETED with the end stamped; the results are returned |
| Workflow.AgentWorkflow.GetExecutionReport | agents/workflow.py:163-188 | the report carries the id, the status value and the results; a duration exists exactly when both timestamps do and is their difference; there is one step entry per step, with its name, type, status, error and result |
| Workflow.PipelineBuilder.constructor | agents/workflow.py:193-197 | a new builder has no workflow |
| Workflow.PipelineBuilder.CreateWorkflow | agents/workflow.py:199-204 | a fresh empty PENDING workflow with the id and name replaces any earlier one |
| Workflow.PipelineBuilder.AddStep | agents/workflow.py:206-219 | with a workflow, a step with one attempt is appended; without one the call raises |
| Workflow.PipelineBuilder.Build | agents/workflow.py:221-225 | without a workflow "No workflow created" is raised, otherwise the workflow is returned |
| Workflow.TemplatesAreWellFormed | agents/workflow.py:233-419 | the templates have five, three and two steps, each of an agent type the factory knows, with one attempt, PENDING |
| Workflow.PortfolioReviewWorkflow | agents/workflow.py:233-323 | the portfolio review has id portfolio_review and the portfolio, risk, market, compliance and summary steps, in order |
| Workflow.ComplianceReviewWorkflow | agents/workflow.py:326-379 | the compliance review has id compliance_review and the compliance, risk and summary steps, in order |
| Workflow.MarketAnalysisWorkflow | agents/workflow.py:382-419 | the market analysis has id market_analysis and the market and summary steps, in order |
| RagPipeline.RequestSize | core/rag/rag_pipeline.py:44-48 | twice top_k documents are requested when reranking follows, top_k otherwise |
| RagPipeline.Rerank | core/rag/rag_pipeline.py:88-103 | reranking keeps the retriever's order and returns its first top_k documents, with Python's slice meaning for a negative top_k |
| RagPipeline.RerankingKeepsPrefix | core/rag/rag_pipeline.py:58-63 | whether reranking is on or off, the same documents are kept: the first top_k retrieved, in the retriever's order |
| RagPipeline.PreviewShape | core/rag/rag_pipeline.py:76 | a preview is at most 203 characters and starts with the text's first 200 characters; it equals the text exactly when the text is at most 200 characters, or 203 characters ending in "..." |
| RagPipeline.PreviewIdempotent | core/rag/rag_pipeline.py:76 | previewing a preview changes nothing |
| RagPipeline.Sources | core/rag/rag_pipeline.py:69-77 | there is one citation per kept document, in order |
| RagPipeline.ProcessQuery | core/rag/rag_pipeline.py:22-86 | the loop builds the response the specification gives for what the retriever returns on the requested size |
| RagPipeline.RespondShape | core/rag/rag_pipeline.py:44-86 | nothing retrieved gives no contexts, no sources, a total of 0 and no query echo; otherwise the query is echoed, at most top_k documents are kept from the front, the i-th context is the i-th kept text, the i-th citation has index i+1 and that document's segment, document id, score and preview, and the total is the number kept |
| RagPipeline.SystemPrompt | core/rag/rag_pipeline.py:122-129 | the system prompt is never empty, and it is the default one exactly when none or an empty one is given (or the default is given) |
| RagPipeline.Labelled | core/rag/rag_pipeline.py:132-135 | there is one labelled block per context |
| RagPipeline.PromptFrame | core/rag/rag_pipeline.py:122-146 | the prompt opens with the system prompt, the default one when none or an empty one is given, and closes with the question line and the answer cue |
| RagPipeline.ContextsNumberedInOrder | core/rag/rag_pipeline.py:132-135 | no contexts give an empty section, one gives its block, and one more appends a blank line and the next numbered block |
| RagPipeline.PromptHasEveryContext | core/rag/rag_pipeline.py:131-144 | every context appears in the prompt inside its numbered block |
| Storage.SanitizeFilename | utilities/storage.py:104-111 | the sanitised name is as long as the base name, holds only letters, digits, '.', '-' and '_', and keeps each safe character of the base name in place while replacing every other by '_' |
| Storage.SanitizedHasNoSlash | utilities/storage.py:104-111 | a sanitised name has no '/', so it stays a single path component |
| Storage.SanitizeIdempotent | utilities/storage.py:104-111 | sanitising a sanitised name changes nothing |
| Storage.StoragePathLayout | utilities/storage.py:54-56 | a stored path splits at '/' into the subfolder, the date and a file part made of at most eight digest characters, '_' and the sanitised name, so an uploaded name cannot leave the dated folder |
| Storage.AzureNeverSaves | utilities/storage.py:69-72 | as written, the azure branch never stores the file: at any stack depth the call ends in a recursion error |
| Storage.Save | utilities/storage.py:28-75 | saving fails exactly for a provider other than local and azure, with "Unknown storage provider: ..."; otherwise it returns the storage path, the full SHA-256 digest and the size of the content |
| Storage.SaveAgreesExceptAzure | utilities/storage.py:58-75 | for every provider other than azure the corrected save is the one as written |
| Storage.StorageManager.constructor | utilities/storage.py:19-26 | the manager keeps its provider and root and starts from the files already stored |
| Storage.StorageManager.SaveFile | utilities/storage.py:28-75 | the result is the save's; on success the content is stored at the returned path, replacing any file there, and nothing else changes; on failure nothing changes |
| Storage.StorageManager.GetFilePath | utilities/storage.py:77-82 | a full path under the root is returned exactly for the local provider; any other raises "Provider ... not implemented" |
| Storage.StorageManager.FileExists | utilities/storage.py:84-88 | a file exists exactly when the provider is local and a file is stored at the path |
| Storage.StorageManager.DeleteFile | utilities/storage.py:90-102 | the answer is true exactly when the file existed, and then exactly that file is removed; otherwise nothing changes |
| Storage.SaveThenDelete | utilities/storage.py:28-102 | saving a file at a free path and deleting it at the returned path leaves the storage as it was |
| Helpers.GenerateUniqueId | utilities/helpers.py:15-32 | with a prefix the id is the prefix, '_' and the MD5 digest of "prefix_timestamp_suffix"; without one it is the digest alone |
| Helpers.ExtensionShape | utilities/helpers.py:35-45 | the extension holds no dot, is empty exactly when the final path component has no suffix, and is otherwise the lower-cased suffix the document processors see, without its dot |
| Helpers.ReplaceUnsafe | utilities/helpers.py:95 | the first substitution keeps the length, keeps word characters, whitespace, '-' and '.', and replaces every other character by '_' |
| Helpers.SanitizedShape | utilities/helpers.py:79-100 | a cleaned name is no longer than the final path component, has no whitespace and no '/', and holds only word characters, '-', '.' and '_' |
| Helpers.SanitizeFixedPoint | utilities/helpers.py:92-98 | a name of word characters, '-' and '.' only, other than ".", is already clean |
| Helpers.SanitizeIdempotent | utilities/helpers.py:79-100 | cleaning a cleaned name changes nothing |
| Helpers.Serialize | utilities/helpers.py:119-138 | an object's to_dict() result is used when it has one, else its attribute dict; lists and tuples become lists of the same length whose items are the serialised items; dicts keep their keys, each mapped to its serialised value; scalars and objects with neither come back unchanged |
| Helpers.SerializePlain | utilities/helpers.py:119-138 | data already made of scalars, lists and string-keyed dicts comes back unchanged |
| Helpers.SerializeStructural | utilities/helpers.py:133-136 | data made of scalars, lists, tuples and dicts serialises to plain data, every tuple at any depth becoming a list, and serialising again changes nothing |
| AdminModels.FindModel | api/routes/admin/models.py:54-60 | a model found is in the table with the id asked for; 404 "Model not found" comes exactly when no row has that id |
| AdminModels.FindModelFirst | api/routes/admin/models.py:57 | when some row has the id, the row found is the first one with it |
| AdminModels.Without | api/routes/admin/models.py:84 | the rows kept are exactly the rows with another id, and never more |
| AdminModels.ModelRegistry.constructor | api/routes/admin/models.py:25-42 | the table starts with the two seed rows |
| AdminModels.ModelRegistry.ListModels | api/routes/admin/models.py:45-51 | the listing reports success and the whole table |
| AdminModels.ModelRegistry.GetModel | api/routes/admin/models.py:54-60 | the answer is the lookup of the id in the current table |
| AdminModels.ModelRegistry.CreateModel | api/routes/admin/models.py:63-77 | one row is appended, with id one more than the table's length, the request's name, provider and deployment and status active; earlier rows are untouched and no check is made that the id is free |
| AdminModels.ModelRegistry.DeleteModel | api/routes/admin/models.py:80-87 | every row with the id is dropped, the rest keep their order, and the answer is "Model deleted" whether or not a row matched |
| AdminModels.ModelRegistry.ListProviders | api/routes/admin/models.py:90-99 | the providers are azure, openai and anthropic, in that order |
| AdminModels.SeedLookup | api/routes/admin/models.py:25-42 | the table starts with the active Azure models "1" (GPT-4) and "2" (GPT-3.5 Turbo), and has no model "3" |
| AdminModels.DeleteShape | api/routes/admin/models.py:80-87 | after a delete the id is not found, every other id is found as before, and deleting again changes nothing |
| AdminModels.CreateThenGet | api/routes/admin/models.py:63-77 | a created row is found by its id unless an earlier row already has that id, which then shadows it |
| AdminModels.IdCollision | api/routes/admin/models.py:67 | from the initial table, deleting "1" and creating a model gives two rows with id "2", and get_model("2") still answers GPT-3.5 Turbo |
| PyText.IsArabic | document_processing/chunking/multilingual_splitter.py:84-87 | the text counts as Arabic exactly when one of its characters lies in U+0600..U+06FF |
| Ranking.SortDesc | knowledge_base/vector_store/memory_store.py:172 | the ranked results are a permutation of the scored ones |
| Ranking.SortDescSorted | knowledge_base/vector_store/memory_store.py:172 | the ranked results are in descending score order |
| Ranking.TopIsBest | knowledge_base/vector_store/memory_store.py:172-175 | the first `top_k` of the sorted results are the best: every result cut off scores no higher than every result kept |
| Ranking.InsertKeepsTies | knowledge_base/vector_store/memory_store.py:172 | an inserted element goes ahead of the elements with its own score and after no other element with that score |
| Ranking.SortDescStable | knowledge_base/vector_store/memory_store.py:172 | the sort is stable: the results with any one score come out in their input order |

## Left out

- I/O, `async`, logging and database sessions: tables are sequences or maps in query order, and a commit is the assignment of the new table.
- The network (`fetch`, the Dify HTTP API): responses and failures are parameters.
- Clocks, `uuid4`, MD5 and SHA-256: the current time (an integer), identifiers and digests are parameters.
- JWT signing and decoding and bcrypt hashing: the decoded claims or the outcome of a decode or a password check are parameters.
- Embeddings and cosine similarity: the similarity of two vectors is a function parameter and scores are abstract reals.
- Case mapping (`lower`, `upper`, `title`) is ASCII-only, because Unicode case tables are not part of Dafny.
- The regular-expression class `\w` is approximated by ASCII letters and digits, `_`, the Arabic letters U+0621 to U+064A and the Arabic-Indic digits U+0660 to U+0669, because Unicode categories are not part of Dafny.
- `ApiAdapter.AdaptEndpoint`: keys inherited from the JavaScript object prototype (such as `"constructor"`) are not modelled, because a map has no prototype.
- `I18n.Translate`: a key segment naming a property inherited from the JavaScript object prototype (`constructor`, `toString`, …) finds that property, a function, which `t` returns; the model's dictionaries have no prototype, so it returns the key.
- `I18n.Translate`: indexing into a string leaf by a further key segment is not modelled, because the dictionaries are trees whose leaves are strings.
- The `useI18n` and `useAuth` hooks throwing outside their providers, and all rendering in `ProtectedRoute` and `Sidebar`: React plumbing, not logic.
- `Storage.StorageManager`: path normalisation of `local_path / relative_path`, directory creation and the exceptions `unlink` may raise are not modelled; files are keyed by their relative path.
- `get_mime_type`, `format_file_size` and `ensure_directory` in utilities/helpers.py: a table lookup in `mimetypes`, floating-point formatting, and a file-system call.
- The agent's `chat` and `get_stats` in core/base_agent.py: a network call to Dify and a dictionary of counters.
- `_generate_document_id`, `_extract_metadata` and `get_stats` of the base document processor: a digest, file-system metadata and counters. The format-specific `process` of a subclass is a parameter.
- The `to_dict` methods of the Dify configuration, the agent configuration and the vector document: field-by-field dictionaries.
- `get_current_user_info` of the `/auth/me` route: it returns the user record it is given.
- `RoleAdmin`: `get_role`, `get_permission_matrix`, the rendering of `list_roles` items and its case-insensitive `ilike` search filter are not modelled; the only database failure modelled as a 500 is a role whose `permission_ids` is null.
- `Workflow`: the `on_success` and `on_failure` callbacks, the `inputs_handler`, the exponential back-off sleep and agent creation all happen inside the step runner, which is a parameter; its outcome says whether an attempt's result was stored before it failed (a raising `on_success`).
- `RateLimit`: the client is a string and times are integers in milliseconds, instead of a request IP and `datetime` values.
- `Tenancy`: HTTP header names are matched exactly, not case-insensitively.
- `AdminModels.IdCollision` shows that a create after a delete can reuse an id; it is not a finding, because the intended fix is not evident from the code.
- `TextSplitting.TextSplitter.ForceSplit` requires `Terminates()`, that is chunk_size − chunk_overlap − max(back-off − 1, 0) > 0, because otherwise the source's `_force_split` loop need not end; `OverlapStalls` shows it never ends when chunk_overlap ≥ chunk_size. `Terminates()` is sufficient, not necessary: a text without spaces also advances under some settings it excludes.
- `TextSplitting.TextSplitter.SplitText` requires `Terminates()`, for the same reason, because it calls the forced split.
- `MultilingualSplitting.SplitText` requires `Terminates()`, for the same reason, because it calls the forced split.
- `DocumentService.ChunkText` requires a positive chunk size, because with a size of zero or less the source's slicing loop never ends on non-blank text.
- `PermissionsDecorators.Gate`: the 403 detail for a single permission shows the permission's value, as a `str`-valued enum is formatted in Python up to 3.10; Python 3.11 and later show `PermissionEnum.NAME` instead.
- `AdminRolesStatic.UserDirectory.GetRoleStatistics`: the percentages are not modelled, because they are floating point; the counts are.
- `AdminRolesStatic.RoleLessCallerIsRefused`, `AdminRolesStatic.SystemAdminGateIff`: state the gate with the role read through its name (see Findings); as written every gate refuses every caller, which `AsWrittenGatesRefuseEveryone` states.
- `AdminRolesStatic.ListRoles`, `AdminRolesStatic.GetRoleDetails`, `AdminRolesStatic.ListPermissions`: use the corrected gate; as written each answers 403 to every caller (`AsWrittenGatesRefuseEveryone`), so its listing is never reached.
- `AdminRolesStatic.UserDirectory.GetUserRole`, `AdminRolesStatic.UserDirectory.GetUserPermissions`, `AdminRolesStatic.UserDirectory.GetRoleStatistics`, `AdminRolesStatic.UserDirectory.AssignUserRoleAsWritten`, `AdminRolesStatic.UserDirectory.AssignUserRole`: use the corrected gate, and a user row holds the name of its role rather than the Role object. As written the gate answers 403 first; past it, `RoleEnum(user.role)` (lines 143 and 227) would fail for every user with a role, `user.role = new_role` (line 188) would assign a string to a relationship, and `User.role == role_enum.value` (line 274) would compare a relationship with a string. None of these is modelled beyond the gate.
- `CoreAuth.RequireAdmin`, `CoreAuth.RoleChecker`: compare the role's name (see Findings); as written both refuse every user, which `CoreAuth.RequireAdminAsWritten`, `CoreAuth.RoleCheckerAsWritten` and `CoreAuth.AsWrittenGatesAdmitNobody` state.
- `CoreAuth.UserTable.AuthenticateUser`: reads the columns `password_hash` and `last_login_at` (see Findings); as written a known email raises AttributeError, which `CoreAuth.AuthenticateUserAsWritten` states.
- `CoreAuth.AccessClaims`, `CoreAuth.RefreshClaims`, `CoreAuth.DecodeToken`, `CoreAuth.GetCurrentUser`, `CoreAuth.AccessAndRefreshDiffer`, `CoreAuth.ActiveCheckIsRedundant`, `CoreAuth.ForbiddenMeansKnownUser`: state the token service with its settings readable (see Findings); as written each of these reads fails with AttributeError on the module's `settings`, which `CoreAuth.AsWrittenTokensNeverMade` and `CoreAuth.AsWrittenTokenServiceFails` state, and `get_current_user` answers 500 before any of its checks. Reading from `settings.security` still leaves the default access lifetime unmodelled, because `SecuritySettings` keeps it in minutes, not days (`CoreAuth.SecuritySettingsServeTokens`).
- `CoreAuth.RequireAdmin`, `CoreAuth.RoleChecker`, `CoreAuth.AsWrittenGatesAdmitNobody`, `CoreAuth.AdminIsSingleRoleCheck`: like every endpoint of `AdminRolesStatic` and `RoleAdmin`, which all depend on the `get_current_user` of core/auth.py, these are stated for a caller that dependency has returned; as written it answers 500 first (`CoreAuth.AsWrittenTokenServiceFails`).
- `AuthMiddleware.DecodeToken`, `AuthMiddleware.AuthStore.GetCurrentUser`: catch the decoding failure and answer 401 (see Findings); as written a token that does not decode, every plain API token among them, ends in a 500, which `AuthMiddleware.DecodeTokenAsWritten`, `AuthMiddleware.AuthStore.GetCurrentUserAsWritten` and `AuthMiddleware.AsWrittenApiTokensNeedAJwt` state.
- `RoleAdmin.RoleStore.CreateRole`: supplies `display_name` (see Findings); as written the first commit fails and the call answers 500 unless the name is taken, which `RoleAdmin.RoleStore.CreateRoleAsWritten` states.

## Findings

| source | as written | input that shows it | evidently intended | confidence | as-written member | corrected member |
|---|---|---|---|---|---|---|
| api/routes/admin_roles.py:171-178 | `assign_user_role` upper-cases the requested role and then validates it with `RoleEnum`, whose values are lower-case, so every request fails with 400 "Invalid role" (modelled by `UserDirectory.AssignUserRoleAsWritten` and `AssignedRoleAsWritten`) | body `{"role": "admin"}` becomes `"ADMIN"` and is refused with 400 | lower-case the role before validating it and store the role's value (`AssignedRole`, `UserDirectory.AssignUserRole`) | not executed | AdminRolesStatic.AsWrittenRefusesEveryRole | AdminRolesStatic.AssignedRoleAccepts |
| knowledge_base/vector_store/memory_vector_store.py:101-113 | `delete` collects one index per requested id, so a repeated id adds the same index twice, and the descending deletion then removes the neighbour that moved into that position (modelled by `DeletedAsWritten`) | entries with ids `["a", "b"]` and `delete(["a", "a"])` remove both entries | each named entry is removed once and the others stay (`Deleted`, `MemoryVectorStore.Delete`) | not executed | VectorLists.RepeatedIdDeletesBystander | VectorLists.DeleteRemovesFirstOccurrences |
| utilities/storage.py:69-72 | the `azure` branch calls `save_file` again with the same provider, which recurses until a RecursionError (modelled by `SaveAsWritten`) | provider `"azure"` with any file | store the file locally, as the branch's "using local fallback" warning says (`StorageManager.SaveFile`) | not executed | Storage.AzureNeverSaves | Storage.Save |
| api/routes/admin_roles.py:22 | every endpoint gates on `has_permission(current_user.role or "USER", ...)`, but `User.role` is the Role relationship (api/models/user.py:38), and a Role object equals no `RoleEnum` key, so `ROLE_PERMISSIONS.get` finds nothing; role-less users fall back to `"USER"`, which is a member name and not a value (modelled by `AllowedAsWritten`) | once `get_current_user` reads its settings from `settings.security` (the core/auth.py:45-67 row), a caller whose role row is named `super_admin` calls `GET /api/v1/admin/roles` and gets 403 "Insufficient permissions to list roles"; as written the request ends in 500 before the gate | key the gate on the role's name, which role rows carry as role values (`Allowed`, used by every endpoint of `AdminRolesStatic`) | not executed | AdminRolesStatic.AsWrittenGatesRefuseEveryone | AdminRolesStatic.SystemAdminGateIff |
| core/auth.py:169-182 | `require_admin` tests `current_user.role != "admin"` and the `require_roles` checker tests `current_user.role not in allowed_roles`, both on the Role object, which never equals a string (modelled by `RequireAdminAsWritten` and `RoleCheckerAsWritten`) | once `get_current_user` reads its settings from `settings.security` (the core/auth.py:45-67 row), a user whose role row is named `admin` is refused with 403 "Admin access required. Current role: <Role(id=..., name=admin)>"; as written the request ends in 500 before the gate | compare the role's name (`RequireAdmin`, `RoleChecker`) | not executed | CoreAuth.AsWrittenGatesAdmitNobody | CoreAuth.AdminIsSingleRoleCheck |
| core/auth.py:83-87 | `authenticate_user` reads `user.password`, but the column is `password_hash` (api/models/user.py:25), and it sets `user.last_login`, which is not a column (`last_login_at`, api/models/user.py:55) (modelled by `AuthenticateUserAsWritten`) | any email that has a row raises AttributeError, whatever the password | check the password against `password_hash` and stamp `last_login_at`, as the login route does at api/routes/auth.py:125 and 147 (`UserTable.AuthenticateUser`) | not executed | CoreAuth.AsWrittenAuthenticatesNobody | CoreAuth.UserTable.AuthenticateUser |
| core/auth.py:45-67 | `AuthService` reads `settings.access_token_expire_days`, `settings.refresh_token_expire_days`, `settings.secret_key` and `settings.algorithm`, but the top-level `Settings` (core/config.py:113-166) has none of them; they live in `settings.security`, whose access lifetime is `access_token_expire_minutes` (modelled by `DecodeTokenAsWritten`, `GetCurrentUserAsWritten`, `AccessClaimsAsWritten`, `RefreshClaimsAsWritten`) | any bearer token sent to a route that depends on core/auth.py's `get_current_user` (every admin route) gives 500, because `settings.secret_key` raises AttributeError, which `except JWTError` does not catch | read the settings from `settings.security` (`DecodeToken`, `GetCurrentUser`) | not executed | CoreAuth.AsWrittenTokenServiceFails | CoreAuth.SecuritySettingsServeTokens |
| api/middleware/auth.py:73 | `except jwt.JWTError` names a class that PyJWT, the module imported as `jwt` at line 9, does not define; the clause is evaluated when a non-expiry decoding error reaches it, and raises AttributeError (modelled by `DecodeTokenAsWritten`, `AuthStore.GetCurrentUserAsWritten`) | a plain API token `"abc"` that does not decode as a JWT gives 500 instead of reaching the API-token lookup | catch PyJWT's `InvalidTokenError` and answer 401, so that the API-token lookup runs (`DecodeToken`, `AuthStore.GetCurrentUser`) | not executed | AuthMiddleware.AsWrittenApiTokensNeedAJwt | AuthMiddleware.AuthStore.GetCurrentUser |
| api/routes/admin/roles.py:234-242 | the new `Role` sets `id`, `name`, `description` and `is_system` but not `display_name`, which the model declares NOT NULL with no default, so the first commit raises IntegrityError and the handler answers 500 (modelled by `RoleStore.CreateRoleAsWritten`) | `POST /api/v1/admin/roles` with an unused name gives 500 "Failed to create role: …" and stores nothing | set `display_name` (for example from the name) so that the role is stored (`RoleStore.CreateRole`) | not executed | RoleAdmin.RoleStore.CreateRoleAsWritten | RoleAdmin.RoleStore.CreateRole |
