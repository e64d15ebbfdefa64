# Verified model of the authorization, session and resilience core

The service is a multi-tenant FastAPI back end. Its permissions are bit masks: roles carry a
cached mask, access tokens carry a mask and a version, and every worker process decides
requests from an in-memory cache fed by Redis. This project models that core in Dafny and
proves what its design relies on, over every input, every interleaving and every run.

`dafny verify dfyconfig.toml` checks everything; the files need nothing but Dafny 4.11.

## How it is laid out

| file | what it models |
|---|---|
| `Mask.dfy` | integers as masks: OR, AND, AND-NOT and shift digit by digit, the sets of bits they stand for, the 32-byte and hex codecs |
| `Registry.dfy` | the permission catalog: masks of names and back, the worklist that expands implied permissions, the released constants |
| `Database.dfy` | the tables, and each transaction the repositories make as one `Commit`, refused or applied whole |
| `Delegation.dfy` | effective permissions and masks, who may grant what, which commits move a user's version, agreement of cached masks with rows |
| `Repositories.dfy` | the repository classes, method by method, against `Database`; the start-up permission sync |
| `Services.dfy`, `ServiceObjects.dfy` | what each request decides (guards, then commits), and the service classes that carry it out |
| `TableHistory.dfy` | each link, row, column and version as the last commit about it made it |
| `RequestLaws.dfy` | who may make which request, when it succeeds, what it then leaves, what a refusal tells |
| `RoleAuthoring.dfy`, `TenantSetup.dfy` | what an authoring or tenant request leaves behind when it is alone |
| `RbacRuns.dfy` | the interleaved state machine: requests in flight, committing between each other |
| `Authority.dfy` | over those runs: every change was licensed when it was asked for, and one tenant's accounts change nothing of another's |
| `Confinement.dfy`, `TenantIsolation.dfy`, `TenantCeiling.dfy` | safety over whole runs of that machine |
| `AuthzCache.dfy` | Redis mirror and channel, `publish_events`, the per-worker cache object, the request-time check, minting |
| `AuthzProtocol.dfy` | the freshness protocol: commits, publishes, deliveries, three-read resyncs, split mints, all interleaved |
| `AuthzConvergence.dfy` | exactly when a resync cures a worker |
| `AuthzScenarios.dfy` | runs in which nothing fails and the answer is wrong all the same |
| `SlidingWindow.dfy` | the Redis sliding-window limiter, concurrent and serial |
| `CircuitBreaker.dfy` | the circuit breaker under overlapping and under sequential calls |
| `RefreshTokens.dfy` | refresh-token rotation on the server, one whole refresh at a time |
| `RefreshSessions.dfy` | how long a token lives, and that users do not disturb each other |
| `RefreshHandlers.dfy` | the refresh handler in its three steps, any number of handlers overlapping |
| `ApiClient.dfy` | the browser client's single-flight refresh composed with that handler |
| `ClientRounds.dfy` | which token the client stores, and what a round of rejected requests comes to |
| `Usernames.dfy` | the unique-username loop |
| `Wrappers.dfy`, `Sets.dfy` | options and results, sizes of finite sets |

Masks outside `Mask.dfy` are sets of bit numbers. `Mask.OperatorsAreSetOperators`,
`Mask.BitsDetermineMask` and `Mask.EveryBitSetIsAMask` show that these sets and the source's
integers are the same thing, operator by operator.

Every assignment to a role's mask or name, an active flag or a ceiling carries what the object
it was made on had loaded, and is written only if it changes that, as the ORM does. So the runs
include assignments made on copies that are out of date.

A mutating class is proved against functions on values: each method's `ensures` ties the
new `Contents()` to a function of the old one, and the invariants, bounds and runs are
proved about those functions. A request is a *decision* (`Services.Decide`): the error its
first failing guard raises, or the commits that follow. `ServiceObjects` proves that the
service methods, which call the repository methods in a row, do exactly that; the runs of
`RbacRuns` let the commits of many such decisions interleave.

## Results in brief

- A token whose version is current carries the user's current mask plus what role deletions
  have taken from the user since the mint read their roles, however the commits fell between
  the reads of the mint. So it is exact if and only if no deleted role took a bit that no
  direct grant and no other role gave. Deleting a role is the only commit that moves a mask
  without its version, and it does so exactly when it takes such a bit.
- A bit a worker lets through was really held when the user's version was at least the one
  the worker has cached; no cache is ever ahead of the tables.
- After things settle, a resync makes a worker answer as the tables do if and only if, for
  each key an answer can depend on, the last durable write that landed says what the tables
  say. Where publishes land in commit order, that is so if and only if the last status commit
  about each such key wrote what it announced; it does unless it assigned what its own copy
  already said while the column had moved. Two wrong answers that every resync repeats, with
  nothing lost: publishes that swap, until that user is bumped again; and an activation that
  changes nothing on a copy loaded before a deactivation, until the next status commit.
- A link, row or column is what the last commit about it made it, and a version counts the
  commits that were about its user's permissions. No such thing changes in any run but by a
  request that was about it, from an account that could make it when it was decided: a role or
  a permission is taken from a user by someone who could grant it, or goes with its role.
- A request succeeds exactly when its actor may make it, and alone it leaves things as asked.
  Another tenant's roles and users look like ones that do not exist.
- The accounts of a tenant change no user, role, link or tenant row of anybody else. The one
  exception are roles of no tenant, which any account past the gate of the route may drop from
  the users of every tenant.
- Non-superusers, in any overlap and on however old a copy of a role, never widen what they
  may delegate; every mask stays within the user's own, the delegable roles' and the
  delegable bits at the start.
- Tenants stay isolated and roles stay under their tenant's ceilings. Isolation leans on the
  route gates: without them an account of no tenant can author a global role.
- Every role's cached mask is the OR of its rows in every state of a run if and only if every
  edit of a role was made on a mask that was still current when it committed; runs whose
  edits of one role do not overlap are such runs. Two overlapping additions leave both rows
  and lose the first one's bit.
- Counted requests spanning less than the window minus the clock lag number at most N, and
  that is exactly the span below which they must. Without overlap a request is let through
  exactly when fewer than N were allowed in its window since the key last expired between
  two requests. That is the textbook window as long as the clocks agree enough: whenever a
  window has passed on Redis's clock between one request and the next, one has passed
  between their timestamps. Where they do not, it can let through one the textbook refuses.
  Under any overlap a request is refused only when N others of less than a window ago stand.
- With refreshes serialised, a refresh token succeeds at most once and a replayed one ends
  all sessions of its user. A token can be rotated exactly until it expires, is exchanged, is
  logged out or a spent token of its user comes back; nothing another user does matters.
- However many requests are rejected at once, one undisturbed refresh sends each of them again
  and leaves the client with the one successor; a failed one gives each of them up. What the
  client stores is always the last reply's or login's token unless it was cleared since.
- With handlers that overlap, a token can be rotated twice if and only if some
  look-up finds it good between another handler's look-up and its revocation, and one sign-in
  with two handlers gets there; one client that shares its refresh promise never does.
- Without overlap the breaker refuses a call exactly when the last call to get through failed,
  was one failure too many, and is less than a recovery timeout old; with overlap, only when
  some failure with no success since is that young.
- The breaker is closed exactly while fewer than the threshold of failures follow the last
  success, for every threshold of at least one and for no other.

## Where the code and its documentation disagree

The model follows the code.

- `app/core/ratelimit/sliding_window.py:60-63` calls a failed undo harmless; the exception it
  raises reaches the handler at 68-70, which lets the over-limit request through
  (`SlidingWindow.RedisSlidingWindowLimiter.IsAllowed`, case `UndoFails`).
- `app/services/tenant/tenant_service.py:25-29` promises a new tenant's root role every
  catalog permission; it gets the ceiling, which never holds a superuser-only one
  (`TenantSetup.TenantStartsUsable`).
- `app/repositories/rbac/role.py:226-231` announces a version bump for whoever a mutation may
  affect; deleting a role bumps nobody (`Delegation.MaskMovesSilently`).
- `app/core/authz_cache/publisher.py:8-10` calls the mirror authoritative; it is last writer
  wins, so two publishes that swap leave it, and every worker that resyncs from it, behind
  until the next bump of that user (`AuthzScenarios.SwappedPublishesStayWrong`).
- `app/services/users/user_management_service.py:208-210` says deactivation blocks a user at
  once. An overlapping activation that changes nothing announces the user active all the same
  and lifts the block while the row stays inactive (`AuthzScenarios.IdleActivationStaysWrong`).
- `app/core/ratelimit/sliding_window.py:9-16` promises a true trailing window. The key expires
  on Redis's clock while entries carry the servers', so a key can be forgotten with requests
  of the window still in it (`SlidingWindow.ClockSkewLosesTheTextbook`).
- `app/core/resilience/recovery.py:105` configures a half-open limit that nothing reads, so no
  limit on calls in the half-open state is claimed.

## Model

| member | source | states |
|---|---|---|
| Mask.OperatorsAreSetOperators | app/core/rbac/registry.py:51-67 | on integers, OR is union, AND intersection, AND-NOT difference and a shifted one a singleton, bit by bit |
| Mask.BitsDetermineMask | app/core/rbac/mask.py:1-13 | two masks with the same bits are the same integer |
| Mask.EveryBitSetIsAMask | app/core/rbac/mask.py:1-13 | every finite set of bits is the set of some mask |
| Mask.SubsetTest | app/services/rbac/role_service.py:81-84 | `a & ~b` is zero exactly when every bit of `a` is in `b` |
| Mask.ByteCodecRoundTrip | app/core/rbac/mask.py:21-26 | storing succeeds exactly below 2^256 and loading gives the mask back; loading then storing gives the 32 bytes back |
| Mask.HexCodecRoundTrip | app/core/rbac/mask.py:29-34 | the hex claim of every storable mask decodes to that mask |
| Registry.MaskAlgebra | app/core/rbac/registry.py:51-67 | `names_for_mask` inverts `mask_for` and the other way round up to the full mask; OR is union of names; mask inclusion is name inclusion |
| Registry.ComputeMaskFor | app/core/rbac/registry.py:51-62 | the loop returns the bits of exactly the given names, and fails exactly when some name is unregistered |
| Registry.ExpandImplied | app/core/rbac/registry.py:96-110 | the worklist ends, cycles in the map or not, with the closure of the requested names |
| Registry.ClosureIsLeast | app/core/rbac/registry.py:96-110 | the closure contains the names, is closed, and lies within every closed superset |
| Registry.ClosureLaws | app/core/rbac/registry.py:96-110 | the expansion is idempotent, monotone and distributes over union |
| Registry.ReleaseIsSound | app/core/rbac/registry.py:24-48 | the released catalog has distinct bit positions below 256 |
| Registry.ImpliedStaysWithinTenantNames | app/core/rbac/registry.py:83-93 | expanding names a tenant may hold never reaches a superuser-only or unregistered one |
| Database.ApplyKeepsWf | app/repositories/rbac/role.py:44-224 | every commit keeps foreign keys resolved, names, bits and role names unique, and versions at least one |
| Database.UsersAreMonotone | app/repositories/rbac/role.py:233-253 | no commit removes a user, lowers a version, or changes a user's tenant or superuser flag |
| Database.RowsAreMonotone | app/repositories/rbac/role.py:44-224 | no commit removes a tenant or permission row, edits a permission row, or moves a role to another tenant |
| TableHistory.FactsFollowHistory | app/repositories/rbac/role.py:154-308 | in every history of commits a link (user-role, direct grant, role-grants-role, role-grants-permission), a permission row of a role and a role itself are there exactly when the last commit about them put them there, or they were there at first and none was about them |
| TableHistory.CellsFollowHistory | app/repositories/rbac/role.py:44-224 | names, tenants, account data, active flags, ceilings, cached masks and permission rows are what was written last; an assignment that changes nothing on its own copy writes nothing |
| TableHistory.VersionsCount | app/repositories/rbac/role.py:233-253 | a user's version has moved by exactly the number of commits about their permissions: their own links and grants, and edits or syncs of a role they hold |
| TableHistory.LinksMoveMasks | app/repositories/rbac/role.py:178-192 | giving a role or a permission adds exactly its bits to that user's mask; taking one leaves exactly what the other roles and grants carry |
| TableHistory.OthersKeepTheirMasks | app/repositories/rbac/role.py:178-192 | and nobody else's mask moves |
| Delegation.EffectivePermissionMask | app/core/rbac/delegation.py:30-47 | the two loops return the cached masks of the user's roles together with the registered bits of the direct grants |
| Delegation.DirectMaskIsVersioned | app/repositories/auth/user.py:123-137 | a commit that leaves the user's version alone leaves the bits of direct grants alone |
| Delegation.MaskMovesSilently | app/repositories/rbac/role.py:154-224 | a user's mask moves without their version exactly when a role they hold is deleted and carries a bit that no direct grant and no other role of theirs does |
| Delegation.UnversionedStep | app/repositories/rbac/role.py:154-224 | a commit that leaves the version alone takes exactly those bits and nothing else |
| Delegation.AgreementKeptExactly | app/repositories/rbac/role.py:206-224 | a commit keeps every cached mask equal to the OR of its rows' bits exactly when it is no edit made on a mask that moved since its role was loaded |
| Delegation.EditKeepsAgreement | app/repositories/rbac/role.py:206-224 | an edit of a permission with a bit keeps its role's mask right exactly when the loaded mask is the column's |
| Delegation.RowsNamedCarryTheMask | app/services/rbac/role_service.py:78-89 | after a sync, the rows found by name carry exactly `mask_for` of the names, one row each |
| Delegation.RootRowsCarryTheMask | app/repositories/rbac/role.py:74-84 | after a sync, the rows a root role gets carry exactly the clamped ceiling |
| Delegation.NameHeldIffBitHeld | app/core/rbac/delegation.py:19-47 | a registered permission is in `effective_permissions` exactly when its bit is in `effective_permission_mask` |
| Delegation.MaskIsMaskForNames | app/core/rbac/delegation.py:19-47 | `effective_permission_mask` is `mask_for` of `effective_permissions` whenever those are registered |
| Repositories.RoleRepository.BumpPermVersion | app/repositories/rbac/role.py:233-253 | exactly the given users that exist move up by one, and exactly their new versions come back as events, once each |
| Repositories.RoleRepository.Create | app/repositories/rbac/role.py:44-57 | inserts the role with its rows and mask, or rolls back on a taken name, a missing tenant or a missing row |
| Repositories.RoleRepository.CreateRootTenantRole | app/repositories/rbac/role.py:59-95 | the root role's mask, rows and grantable links all come from the clamped ceiling, in one commit |
| Repositories.RoleRepository.SyncRootTenantRolePermissions | app/repositories/rbac/role.py:97-145 | replaces the root role's rows, mask and grantable links, bumps its holders and nobody else, and leaves all else; no root role, no change |
| Repositories.RoleRepository.Rename | app/repositories/rbac/role.py:147-152 | only the name changes, unless it is what the loaded role says or is taken in that scope |
| Repositories.RoleRepository.Delete | app/repositories/rbac/role.py:154-156 | the role goes with every link that mentions it, and no version moves |
| Repositories.RoleRepository.AssignToUser | app/repositories/rbac/role.py:178-183 | links role and user, bumps that user once and announces it, or rolls back |
| Repositories.RoleRepository.RemoveFromUser | app/repositories/rbac/role.py:185-192 | unlinks role and user, bumps that user once and announces it, link or no link |
| Repositories.RoleRepository.AddPermission | app/repositories/rbac/role.py:206-214 | adds the row, writes the loaded mask with the bit unless that changes nothing, and bumps and announces every holder |
| Repositories.RoleRepository.RemovePermission | app/repositories/rbac/role.py:216-224 | removes the row, writes the loaded mask without the bit unless that changes nothing, and bumps and announces every holder |
| Repositories.RoleRepository.AddGrantableRole | app/repositories/rbac/role.py:270-275 | adds the link, or rolls back on a duplicate or a missing role |
| Repositories.RoleRepository.RemoveGrantableRole | app/repositories/rbac/role.py:277-283 | removes the link and nothing else |
| Repositories.RoleRepository.AddGrantablePermission | app/repositories/rbac/role.py:295-300 | adds the link, or rolls back on a duplicate or a missing row |
| Repositories.RoleRepository.RemoveGrantablePermission | app/repositories/rbac/role.py:302-308 | removes the link and nothing else |
| Repositories.RoleRepository.GetGrantablePermissionMask | app/repositories/rbac/role.py:330-345 | the loop returns the bits of every permission the actor's roles may grant |
| Repositories.UserRepository.Create | app/repositories/auth/user.py:25-48 | inserts an active user at the first version, or rolls back on a taken name or address |
| Repositories.UserRepository.GrantPermission | app/repositories/auth/user.py:123-129 | adds the grant, bumps that user once and announces the new version |
| Repositories.UserRepository.RevokePermission | app/repositories/auth/user.py:131-137 | removes the grant, bumps that user once and announces the new version |
| Repositories.UserRepository.SetActive | app/repositories/auth/user.py:139-146 | writes the flag unless the loaded user already says so, bumps nobody, and announces what was asked for either way |
| Repositories.TenantRepository.Create | app/repositories/tenant/tenant.py:21-26 | inserts an active tenant with its ceiling, or rolls back on a taken name |
| Repositories.TenantRepository.SetAllowedPermissionMask | app/repositories/tenant/tenant.py:32-36 | writes that tenant's ceiling, unless it is what the loaded tenant says, and nothing else |
| Repositories.TenantRepository.SetActive | app/repositories/tenant/tenant.py:38-45 | writes the flag unless the loaded tenant already says so, and announces what was asked for either way |
| Repositories.SyncPermissions | app/cli/sync_permissions.py:33-49 | succeeds exactly when no row has a catalog entry's name without its bit or its bit without its name; then the table mirrors the catalog; old rows are never touched and each new row mirrors an entry, counted once |
| ServiceObjects.RoleService.GrantableMaskFor | app/services/rbac/role_service.py:34-47 | the grantable bits of the actor's roles, cut to the ceiling of the actor's tenant |
| ServiceObjects.RoleService.CreateRole | app/services/rbac/role_service.py:56-96 | raises the first guard's error and writes nothing, or inserts the role and links each of a non-superuser's roles to it, stopping at the first refused write |
| ServiceObjects.RoleService.ExtendRole | app/services/rbac/role_service.py:112-146 | raises the first guard's error and writes nothing, or adds the permission and then each implied one the role lacks, each on the role as reloaded after the one before |
| ServiceObjects.UserManagementService.AssignRole | app/services/users/user_management_service.py:133-149 | the guards in order (may grant, role, user in tenant, not yet held), else the assignment; the other requests with one write likewise |
| ServiceObjects.UserManagementService.RemoveRole | app/services/users/user_management_service.py:151-167 | the guards in order (may grant, role, user in tenant, held), else the removal |
| RequestLaws.DecidedExactly | app/services/users/user_management_service.py:133-203 | every request passes its guards exactly when its actor may make it: could grant the role, permission or names, reaches the user, manages the role |
| RequestLaws.RequestTurnsFact | app/services/users/user_management_service.py:133-203 | alone, a request for a link or a row succeeds exactly when its actor may make it, and turns it from what it was to what was asked |
| RequestLaws.RequestWritesCell | app/services/users/user_management_service.py:205-215 | alone, a request for a flag or a name leaves it as asked; a rename fails exactly when the name is taken in its scope, and then changes nothing |
| RequestLaws.AccountOpens | app/services/users/user_management_service.py:38-60 | a registration, a seed or a created user adds exactly one active account at the first version: of no tenant, of no tenant and superuser, of its creator's tenant |
| RequestLaws.TakingUndoesGiving | app/services/users/user_management_service.py:133-167 | whoever gave a role can take it back, and the tables are then as before but for two moves of that user's version |
| RequestLaws.ConflictMeansAlreadySo | app/services/users/user_management_service.py:146-201 | a conflict is answered exactly when the actor may make the request but it is already so |
| RequestLaws.NoRightNoAnswer | app/services/users/user_management_service.py:133-137 | GrantNotAllowed is answered exactly to those without the right, whether or not the role, permission or user exists |
| RequestLaws.ForeignLooksMissing | app/services/rbac/role_service.py:22-32 | another tenant's role is RoleNotFound and another tenant's user UserNotFound, as if they did not exist |
| ServiceObjects.TenantService.CreateTenantWithAdmin | app/services/tenant/tenant_service.py:25-64 | the guards in order, else tenant, root role, admin and assignment in that order, stopping at the first refused write |
| ServiceObjects.TenantService.UpdateTenantPermissions | app/services/tenant/tenant_service.py:81-95 | superuser, then tenant, then names, else the new ceiling and the root role's sync |
| RoleAuthoring.LinkEachApplies | app/services/rbac/role_service.py:91-94 | the linking loop adds exactly one link from each of the author's roles and changes nothing else |
| RoleAuthoring.AddEachApplies | app/services/rbac/role_service.py:143-146 | the adding loop adds all the rows and their bits and bumps each holder once per row |
| RoleAuthoring.CreateRoleApplies | app/services/rbac/role_service.py:86-96 | past its guards, a create-role request never fails half way; only the role and its links are new |
| RoleAuthoring.AuthorCanGrant | app/services/rbac/role_service.py:69-71 | afterwards the author can grant the new role exactly if they are a superuser or hold some role |
| RoleAuthoring.CreatedRoleIsClosed | app/services/rbac/role_service.py:78-89 | a role is created with the requested names and closed under implication |
| RoleAuthoring.ExtendedRoleStaysClosed | app/services/rbac/role_service.py:132-146 | adding to a closed role leaves it closed, with exactly what it had and what the new permission implies |
| TenantSetup.CeilingTakesEffect | app/services/tenant/tenant_service.py:81-95 | a moved ceiling commits whole; every holder of the root role may then grant exactly it, and their version moved up by one |
| TenantSetup.TenantStartsUsable | app/services/tenant/tenant_service.py:48-62 | a bootstrap past its guards never fails half way; the admin holds, and may grant, exactly the clamped ceiling |
| RbacRuns.MasksAgreeExactly | app/services/rbac/role_service.py:125-146 | over any run, each cached mask is the OR of its rows in every state exactly when every edit was made on a mask still current |
| RbacRuns.SeparateEditsAgree | app/repositories/rbac/role.py:206-224 | they agree throughout every run in which no request writes a role's mask while another has an edit of that role to make |
| RbacRuns.OverlappingAddsLoseABit | app/repositories/rbac/role.py:206-214 | two requests that each add a permission to one role, both decided before either commits, leave both rows and a mask without the first one's bit |
| RbacRuns.MintedMaskIsMaskFor | app/core/rbac/delegation.py:30-47 | while edits are current, a minted mask is `mask_for` of the effective names |
| RbacRuns.AlwaysSane | app/repositories/rbac/role.py:44-145 | in every state of every run, edits on old copies included, the schema holds, the sync holds, and rows keep the tenant they were created for |
| RbacRuns.AloneIsApplyAll | app/services/rbac/role_service.py:86-96 | a request in flight that nobody disturbs does to the tables what its commits do in one go, stopping at the first that fails |
| RbacRuns.LinkTurn | app/services/rbac/role_service.py:91-94 | whoever links the same roles meanwhile, after its turn a link is there and the loop goes on; only a role that is gone stops it |
| Authority.CommitsWereDecided | app/services/rbac/role_service.py:112-146 | in every run each commit in flight was decided by an earlier request, up to the mask it was reloaded with |
| Authority.ChangesAreLicensed | app/services/users/user_management_service.py:133-215 | in every run a link, row or column changes only by an earlier request that was about it, from an account that could make it when it was decided; so a role or permission is taken from a user only by someone who could then grant it, or with its role |
| Authority.ForeignChangesAreLicensedElsewhere | app/services/rbac/role_service.py:22-32 | when anything created for another tenant changes, the request that licensed it was not one of this tenant's accounts |
| Authority.OtherTenantsStand | app/services/rbac/role_service.py:22-32 | in a run of one tenant's accounts, every user, role, link, flag and tenant row of the others stays as it was at first |
| Authority.SharedRolesCanBeDropped | app/services/rbac/role_service.py:98-105 | the exception: past the gate of the route any account can drop a role of no tenant, which takes it from users of every tenant |
| Authority.OwnedRolesAreManagedAtHome | app/services/rbac/role_service.py:98-105 | a role a tenant owns can be dropped by exactly that tenant's accounts and superusers |
| Confinement.NonSuperusersAreConfined | app/services/users/user_management_service.py:133-203 | in any run of non-superuser steps delegable permissions never grow, delegable roles grow only by new roles, and every effective mask stays within the user's own, the initially delegable roles' and the delegable bits at the start |
| Confinement.DecisionIsConfined | app/services/rbac/role_service.py:112-211 | every commit a non-superuser's request makes stays within the bound: roles assigned or linked are delegable or new, bits are delegable |
| Confinement.FrontierIsLeast | app/core/rbac/delegation.py:50-65 | the frontier is the least set holding non-superusers' roles and closed under who-may-grant-what |
| TenantIsolation.TenantsStayIsolated | app/services/users/user_management_service.py:30-36 | from an empty system, every user-role and role-role link joins two sides of one tenant, in every state of every gated run |
| TenantIsolation.UngatedAccountAuthorsGlobalRole | app/services/rbac/role_service.py:73-96 | past the service's guards alone, an account of no tenant creates a role of no tenant |
| TenantIsolation.GateNeedsTenant | app/core/dependencies.py:36-47 | whoever passes a permission gate, on however old a token, belongs to a tenant or is a superuser |
| TenantCeiling.RolesStayUnderCeilings | app/services/rbac/role_service.py:34-47 | in every state of every run, each tenant-owned role stays within the union of ceilings its tenant has had, each within the tenant mask |
| TenantCeiling.NoSuperuserOnlyBit | app/repositories/rbac/role.py:67-74 | so no tenant-owned role holds the bit of a superuser-only permission |
| AuthzCache.PublishEvents | app/core/authz_cache/publisher.py:33-59 | a full pipeline, or the prefix a connection error left behind: for each event the message, then the durable write |
| AuthzCache.Cache.ApplyEvent | app/core/authz_cache/cache.py:126-141 | one message changes exactly its own entry, last writer wins |
| AuthzCache.Cache.ResyncOnce | app/core/authz_cache/cache.py:112-124 | the cache becomes what the three reads returned, or stays as it was if any failed |
| AuthzCache.Cache.IsStale | app/core/authz_cache/cache.py:69-78 | stale exactly when the user is known at a later version |
| AuthzCache.Cache.Check | app/services/auth/current_user.py:15-30 | the verdict of the first check that fails, in the order user, tenant, version |
| AuthzCache.VerdictsExactly | app/services/auth/current_user.py:15-30 | the exact condition of each verdict; a token that does not decode is always invalid |
| AuthzCache.MintedIsAccepted | app/services/auth/mint.py:19-35 | a token is minted exactly for an active user of no tenant or an active one, and the tables it was read from accept it |
| AuthzProtocol.FreshTokenIsExact | app/services/auth/mint.py:27-35 | a token at the current version carries the current mask and what deletions took since the roles were read; exactly the mask if and only if they took nothing |
| AuthzProtocol.MintedOnlyWhileActive | app/services/auth/mint.py:19-25 | a token is minted only for a user active when read and a tenant that exists and is active when looked up |
| AuthzProtocol.FreshTokenPassesExactly | app/core/dependencies.py:36-47 | while masks agree with rows, the gate lets it through on a permission exactly when the user is a superuser, has it, or a deletion took it since |
| AuthzProtocol.EditsAgreeExactly | app/repositories/rbac/role.py:206-224 | over an execution, masks agree with rows in every state so far exactly when every edit was made on a current mask |
| AuthzProtocol.StableAtOneVersion | app/repositories/auth/user.py:75-88 | between two states at one version the direct grants stand still and the mask shrinks by exactly what deletions took |
| AuthzProtocol.DeletionIsSilent | app/repositories/rbac/role.py:154-156 | deleting a role takes its bits from a holder without moving the version |
| AuthzProtocol.AcceptedBitWasHeld | app/core/authz_cache/cache.py:69-78 | a bit an accepted token carries was held at a moment when the version was at least the cached one, whatever was lost, delayed, repeated or reordered |
| AuthzProtocol.NeverAhead | app/core/authz_cache/cache.py:112-129 | every version in flight, in the mirror, in a half-done resync or in a cache is at most the database's |
| AuthzProtocol.CurrentTokenNeverStale | app/services/auth/current_user.py:28-29 | no worker ever calls a token at the current version stale |
| AuthzConvergence.SettledAnswers | app/core/authz_cache/cache.py:112-124 | whatever was lost, reordered or announced in vain, a resync after things settle makes the worker answer for every plausible token as the tables do if and only if, for each key that shows, the last durable write says what the tables say |
| AuthzConvergence.StatusTold | app/repositories/auth/user.py:139-146 | a status commit's announcement is true of the tables exactly when it did not assign what its copy said while the column had moved |
| AuthzConvergence.CurrentCopiesAreTrue | app/services/users/user_management_service.py:211-215 | whoever assigns the flag on a copy that is still current writes what they announce |
| AuthzConvergence.PublishedIsTold | app/core/authz_cache/publisher.py:39-54 | the tables say about a key what was published last exactly when the last status commit about it wrote what it said; about a version always |
| AuthzConvergence.AnswersMatchExactly | app/services/auth/current_user.py:15-30 | a view answers as the tables do for every plausible token exactly when it reads right wherever an answer depends on it |
| AuthzConvergence.ResyncConverges | app/core/authz_cache/cache.py:112-124 | with publishes in commit order, one resync after things settle makes the worker answer for every plausible token as the tables do, until the next commit, if and only if the last status commit about each key that shows wrote what it announced |
| AuthzConvergence.MintedTokensConverge | app/services/auth/current_user.py:15-30 | then every token ever minted gets the tables' answer |
| AuthzScenarios.SwappedPublishesStayWrong | app/core/authz_cache/publisher.py:39-54 | a run in which nothing is lost, two publishes of one user swap, and the settled, freshly resynced worker accepts a token the tables call stale |
| AuthzScenarios.IdleActivationStaysWrong | app/repositories/auth/user.py:139-146 | a run with every publish successful and in commit order: a deactivation, then an activation on a copy loaded before it; the tables hold the user inactive, the settled, freshly resynced worker accepts their token |
| AuthzScenarios.DeletedRoleLingers | app/repositories/rbac/role.py:154-156 | a run that ends with a token at its user's current version carrying a bit that a role deletion took |
| AuthzConvergence.ResyncsRepeat | app/core/authz_cache/cache.py:112-124 | once settled and resynced, a worker's cache stays what it is however often it resyncs, until a commit |
| SlidingWindow.RedisSlidingWindowLimiter.IsAllowed | app/core/ratelimit/sliding_window.py:44-70 | the answer and the key left behind, by the count, by the undo, and by where an error struck |
| SlidingWindow.RedisSlidingWindowLimiter.GetRemaining | app/core/ratelimit/sliding_window.py:72-82 | what is left of the limit after the trim, never negative; the full limit on an error |
| SlidingWindow.AllowedAreRemembered | app/core/ratelimit/sliding_window.py:52-57 | under any interleaving a counted request keeps its entry, safe from expiry, until it is a window old |
| SlidingWindow.WindowBound | app/core/ratelimit/sliding_window.py:44-67 | counted requests whose timestamps span less than the window minus the lag number at most N |
| SlidingWindow.WindowBoundIsTight | app/core/ratelimit/sliding_window.py:52-57 | two requests with timestamps a given span apart can both pass a limit of one exactly when the span is at least the window minus the lag |
| SlidingWindow.RefusedInACrowd | app/core/ratelimit/sliding_window.py:52-64 | under any overlap a request is refused only when at least N others, submitted less than a window before it, have not been undone |
| SlidingWindow.SerialAnswer | app/core/ratelimit/sliding_window.py:44-67 | without overlap, whatever the two clocks do, a request passes exactly when fewer than N were allowed in (now - W, now] since the key last expired between two requests |
| SlidingWindow.SerialRefinement | app/core/ratelimit/sliding_window.py:44-67 | while the clocks agree enough, a request passes exactly when fewer than N were allowed in (now - W, now] |
| SlidingWindow.TextbookNeedsPace | app/core/ratelimit/sliding_window.py:52-57 | whatever the limit, a request is answered as the textbook does after every paced history ending in a given request exactly when the clocks agree that much about the two |
| SlidingWindow.ClockSkewLosesTheTextbook | app/core/ratelimit/sliding_window.py:48-56 | two serial requests, in order, within the lag, both pass a limit of one although the first is in the second's window |
| SlidingWindow.RemainingPredictsAnswer | app/core/ratelimit/sliding_window.py:72-79 | however the clocks run, remaining is positive exactly when a request at that instant would pass, and makes up the limit with the requests the key knows, which are the window's while the clocks agree |
| CircuitBreaker.Circuit.Call | app/core/resilience/recovery.py:126-145 | whether the function ran, and the state after success, failure, cancellation or refusal |
| CircuitBreaker.HistoryEquivalence | app/core/resilience/recovery.py:147-169 | under any overlap the circuit is closed exactly while failures since the last success number fewer than the threshold |
| CircuitBreaker.EquivalenceNeedsPositiveThreshold | app/core/resilience/recovery.py:101-105 | that equivalence holds of every run exactly for thresholds of at least one |
| CircuitBreaker.InvocationsAreSpaced | app/core/resilience/recovery.py:126-156 | when every call fails and none overlaps, the counter is the number of invocations, the circuit is open exactly from the threshold on, and each later invocation waits out a full recovery timeout |
| CircuitBreaker.InvocationBound | app/core/resilience/recovery.py:126-156 | so at most threshold + floor(T / timeout) of them start within T seconds of the first |
| CircuitBreaker.RefusedWhileRecovering | app/core/resilience/recovery.py:126-169 | without overlap, whatever calls return, raise or are cancelled, a call is refused exactly when the last one to get through failed, was one failure too many since the last success, and its recovery timeout is not over |
| CircuitBreaker.FailingCallerReaches | app/core/resilience/recovery.py:126-156 | a caller that always fails reaches the function exactly at its first attempts up to the threshold and then at each that starts a recovery timeout after the last to reach it |
| CircuitBreaker.RefusedSoonAfterFailure | app/core/resilience/recovery.py:126-156 | under any overlap a call is refused only within a recovery timeout of a recorded failure with no success since |
| CircuitBreaker.SuccessRecovers | app/core/resilience/recovery.py:164-169 | after one success, however late among overlapping calls, every call is admitted until as many failures as the threshold are recorded |
| RefreshTokens.RefreshService.Refresh | app/services/auth/actions/refresh.py:23-61 | table and outcome on every branch: unknown, replayed, expired, user missing, mint denied, rotated |
| RefreshTokens.RefreshTokenRepository.Create | app/repositories/auth/token.py:15-24 | inserts an unrevoked row, refused on a duplicate token |
| RefreshTokens.RefreshTokenRepository.DeleteAllForUser | app/repositories/auth/token.py:33-35 | removes exactly that user's rows |
| RefreshTokens.RefreshTokenRepository.CleanupExpiredTokens | app/queue/task.py:31-36 | removes exactly the expired and the revoked rows |
| RefreshTokens.SpentStaysSpent | app/services/auth/actions/refresh.py:41-55 | once a token has succeeded its row is revoked or gone, in every later state |
| RefreshTokens.RotatesAtMostOnce | app/services/auth/actions/refresh.py:41-55 | each refresh token succeeds at most once in a run |
| RefreshTokens.ReplayIsDetected | app/services/auth/actions/refresh.py:27-35 | a spent token that returns is a breach exactly while its row is there, and invalid otherwise |
| RefreshTokens.LiveRowsBoundedByLogins | app/services/auth/actions/refresh.py:41-55 | a user's unrevoked rows never outnumber their logins |
| RefreshTokens.BreachWipes | app/services/auth/actions/refresh.py:30-35 | after a replayed revoked token, none of that user's earlier tokens is ever in the table again |
| RefreshTokens.NoSuccessAfterBreach | app/services/auth/actions/refresh.py:30-35 | so none of them ever succeeds |
| RefreshSessions.RotatesExactly | app/services/auth/actions/refresh.py:23-61 | a token handed out is good for an exchange exactly while it is unexpired and was not exchanged, logged out or swept, and no spent token of its user came back; the answer is then what its user's standing makes it |
| RefreshSessions.UsersAreSeparate | app/repositories/auth/token.py:33-35 | after any run a user's rows are those of the run without the logins, exchanges and logouts of everybody else |
| RefreshSessions.AnswersAreSeparate | app/services/auth/actions/refresh.py:23-61 | and so is the answer to each of their exchanges |
| RefreshSessions.CleanUpLosesNoRotation | app/queue/task.py:31-36 | a clean-up changes the answer to a later exchange only from breach or expired to invalid; what would have rotated still does |
| ApiClient.Api.OnUnauthorized | frontend/src/lib/api.ts:39-53 | a first 401 joins the shared refresh or starts the one flight; a retried or auth request is rejected |
| ApiClient.Api.OnRefreshReply | frontend/src/lib/api.ts:23-32 | the tokens are stored, or cleared when the post fails |
| RefreshHandlers.StepsMakeOneRefresh | app/services/auth/actions/refresh.py:23-61 | look-up, revoke and issue, undisturbed, make exactly one whole refresh |
| ApiClient.InvariantHolds | frontend/src/lib/api.ts:17-61 | in every run the shared promise, the posts, the stored token and the server's handlers stay consistent |
| ApiClient.SingleFlightNeverBreaches | frontend/src/lib/api.ts:17-61 | at most one refresh out, each token posted at most once, each request sent at most twice, and the server's breach branch never entered |
| ClientRounds.StoredIsLastStored | frontend/src/lib/api.ts:17-32 | in every run the stored token is the one issued for the last flight replied to, or the last login's, unless a lost or refused reply or a sign-out came since |
| ClientRounds.OneRefreshServesAll | frontend/src/lib/api.ts:34-62 | from any reachable world with a good token stored, however many first 401s arrive, one undisturbed refresh sends each of those requests a second time, touches no other, and leaves the one successor stored, a live row of the same user |
| ClientRounds.FailedRefreshEndsAll | frontend/src/lib/api.ts:28-62 | when the post fails or no token is stored, each of those requests is given up after one send and nothing stays stored |
| ClientRounds.FinalRejection | frontend/src/lib/api.ts:36-39 | a second 401, or one of an auth endpoint, ends its request and starts nothing |
| RefreshHandlers.OneRotationExactly | app/services/auth/actions/refresh.py:25-55 | throughout any run of overlapping handlers, logins, logouts and clean-ups, a token's rotations and possible further ones number at most one exactly when no look-up finds it good between another handler's look-up and its revocation |
| RefreshHandlers.SeparateLookUpsRotateOnce | app/services/auth/actions/refresh.py:25-55 | so where look-ups of one token never fall between another's look-up and revocation, it is rotated at most once |
| RefreshHandlers.ContestedTokenRotatesTwice | app/services/auth/actions/refresh.py:41-55 | where one has, the handlers under way can finish with two live successors for the one token |
| RefreshHandlers.OneSignInTwoSessions | app/services/auth/actions/refresh.py:25-55 | a run from nothing that gets there: one sign-in, two handlers that look its token up, two live successors |
| RefreshHandlers.NoMoreThanPotential | app/services/auth/actions/refresh.py:41-55 | without another look-up a token is never rotated more often than its handlers under way allow |
| Usernames.SanitizeIdentifier | app/core/security/validation.py:59-62 | non-empty, at most 50 characters, all of them allowed |
| Usernames.SanitizedStays | app/core/security/validation.py:59-62 | exactly the identifiers of allowed characters and length are left alone; sanitizing twice is sanitizing once |
| Usernames.SanitizedIsStripped | app/core/security/validation.py:59-62 | what is left is a beginning of the value without its other characters; nothing allowed gives the stock name |
| Usernames.LocalPartIsBeforeAt | app/services/auth/actions/google_oauth.py:93-94 | the base is what stands before the first @ |
| Usernames.CandidatesDiffer | app/services/auth/actions/google_oauth.py:98-100 | no candidate is tried twice |
| Usernames.TriedAreDistinct | app/services/auth/actions/google_oauth.py:98-100 | n tries are n different names |
| Usernames.BuildUniqueUsername | app/services/auth/actions/google_oauth.py:93-102 | for any taken names the loop ends on the first free candidate, non-empty, after at most as many failures as there are taken names |

## Left out

- Repositories.UserRepository.GrantPermission: takes the read and write of `perm_version` as one atomic commit, and RevokePermission likewise; lost updates between two sessions are a matter of database isolation.
- Repositories.RoleRepository.AddPermission: the mask it writes is computed from the role as loaded, which may be old; the reload after an edit is taken as one step with the edit's commit.
- RbacRuns.AlwaysSane: each request is decided on one state of the tables; reads of one request that straddle another's commit are not split. A role's id is drawn when the request is decided, not when it inserts.
- SlidingWindow.WindowBound: counts requests let through by the count; those let through by the error handler are outside it, as the limiter fails open by design. Timestamps are real numbers and not negative.
- Authority.OtherTenantsStand: says nothing of roles of no tenant, of links to them, or of links between this tenant and another; `SharedRolesCanBeDropped` shows why.
- RefreshSessions.UsersAreSeparate: refreshes are whole here; `RefreshHandlers` takes them apart for one token.
- ClientRounds.OneRefreshServesAll: one order of events, each request awaiting the flight once it is over; the invariants cover every other order.
- Confinement.NonSuperusersAreConfined: the permission sync is taken as finished before a run begins; bits are added to the catalog only between runs.
- TenantIsolation.TenantsStayIsolated: superusers are assumed not to create roles, assign roles, grant permissions or link roles themselves; the route gates are modelled, the tokens they read may be as old as can be.
- AuthzConvergence.ResyncConverges: asks for publishes that succeed in commit order; `SettledAnswers` says what is needed of any others.
- ServiceObjects.RoleService.CreateRole: the database's row order is a parameter, without repeats, and so are new identifiers.
- Publishing inside the repository methods: they return the events instead, and `AuthzCache.PublishEvents` and the protocol take it from there.
- ORM objects as such: what is handed from service to repository is an identifier, together with the loaded mask, name, flag or ceiling where one is assigned. Reads of the other attributes of an in-memory copy are taken as of the decision, and the reload inside the root role's sync as part of its commit.
- SQLAlchemy, Postgres and Redis clients, HTTP routing, dependency wiring, pagination and read-only listings.
- JWT signing and expiry, bcrypt and itsdangerous: tokens are records nobody forges, and `jti` is an identifier never used before.
- `async_retry`, `half_open_max`, loggers, formatters, error handlers, health checks and security headers.
- Email, Celery scheduling, the Google OAuth network flow, password reset, migrations and the React pages.
- Other sanitizers and validators of `app/core/security/validation.py`: library-bound.
