/**
 * The service objects (app/services/rbac, app/services/users, app/services/tenant) running
 * on the repositories with nothing else committing in between: each method does exactly
 * what its decision in module Services says, commit by commit, errors included.
 */
module ServiceObjects {
  import opened Wrappers
  import opened Registry
  import opened Database
  import opened Delegation
  import opened AuthzCache
  import opened Services
  import opened Repositories
  import opened RoleAuthoring

  type Outcome = Result<(), Error>

  // The request raised its guard's error and wrote nothing, or made its commits in turn up
  // to the first one the schema refused.
  ghost predicate Ran(before: Db, after: Db, decision: Decision, r: Outcome) {
    match decision
    case Failure(e) => r == Failure(e) && after == before
    case Success(commits) =>
      var (end, ok) := ApplyAll(before, commits);
      after == end && r == if ok then Success(()) else Failure(IntegrityError)
  }

  function Done(ok: bool): Outcome {
    if ok then Success(()) else Failure(IntegrityError)
  }

  class RoleService {
    const db: Store
    const repo: RoleRepository

    constructor (repo: RoleRepository)
      ensures this.repo == repo && db == repo.db
    {
      this.repo := repo;
      db := repo.db;
    }

    predicate Valid() {
      db == repo.db
    }

    // `get_role`
    method FindRole(role: RoleId, actor: UserId) returns (found: bool)
      requires actor in db.users
      ensures found <==> FindsRole(db.Contents(), actor, role)
    {
      if role !in db.roles {
        return false;
      }
      if db.users[actor].superuser {
        return true;
      }
      var tenant := db.roles[role].tenant;
      return tenant.None? || tenant == db.users[actor].tenant;
    }

    method GrantableMaskFor(actor: UserId) returns (mask: Mask)
      requires Valid() && actor in db.users
      ensures mask == GrantableMask(db.Contents(), actor)
    {
      mask := repo.GetGrantablePermissionMask(actor);
      var home := db.users[actor].tenant;
      if home.Some? && home.value in db.tenants {
        mask := mask * db.tenants[home.value].allowed;
      }
    }

    method CreateRole(name: string, names: seq<string>, actor: UserId, order: seq<nat>) returns (r: Outcome)
      requires Valid() && actor in db.users && Wf(db.Contents()) && Distinct(order)
      modifies db
      ensures Ran(old(db.Contents()), db.Contents(),
                  Decide(old(db.Contents()), Request.CreateRole(actor, name, names), order), r)
    {
      ghost var before := db.Contents();
      var superuser := db.users[actor].superuser;
      var tenant := if superuser then None else db.users[actor].tenant;
      if RoleNameTaken(db.Contents(), name, tenant) {
        return Failure(RoleExists);
      }
      var expanded := ExpandImplied(db.cat.implies, names);
      var requested := MaskFor(db.cat, expanded);
      if requested.Failure? {
        return Failure(UnknownName);
      }
      if !superuser {
        var allowed := GrantableMaskFor(actor);
        if requested.value - allowed != {} {
          return Failure(GrantNotAllowed);
        }
      }
      var actorRoles := Arrange(RolesOf(db.Contents(), actor), order);
      ArrangeIsDistinct(RolesOf(db.Contents(), actor), order);
      var row := Role(name, tenant, requested.value, RowsNamed(db.Contents(), expanded));
      var id, ok := repo.Create(name, tenant, row.perms, row.mask);
      ghost var links := if superuser then [] else LinkEach(actorRoles, id);
      ApplyFirst(before, InsertRole(id, row), links);
      LinkEachIs(actorRoles, id);
      NothingToReload(db.Contents(), links);
      if !ok || superuser {
        return Done(ok);
      }
      assert forall l | l in before.grantRoles :: l.1 != id;
      ok := LinkAll(actorRoles, id);
      return Done(ok);
    }

    // The loop of `create_role` over the actor's own roles.
    method LinkAll(actorRoles: seq<RoleId>, id: RoleId) returns (ok: bool)
      requires Valid() && Distinct(actorRoles)
      requires forall l | l in db.grantRoles :: l.1 != id
      modifies db
      ensures (db.Contents(), ok) == ApplyAll(old(db.Contents()), LinkEach(actorRoles, id))
    {
      for i := 0 to |actorRoles|
        invariant ApplyAll(db.Contents(), LinkEach(actorRoles[i..], id))
                  == ApplyAll(old(db.Contents()), LinkEach(actorRoles, id))
        invariant forall l | l in db.grantRoles :: l.1 == id ==> l.0 in actorRoles[..i]
      {
        assert actorRoles[i..][1..] == actorRoles[i + 1..];
        LinkEachStep(db.Contents(), actorRoles[i..], id);
        if (actorRoles[i], id) !in db.grantRoles {
          var linked := repo.AddGrantableRole(actorRoles[i], id);
          if !linked {
            return false;
          }
        }
      }
      return true;
    }

    method UpdateRole(role: RoleId, name: string, actor: UserId) returns (r: Outcome)
      requires Valid() && actor in db.users
      modifies db
      ensures Ran(old(db.Contents()), db.Contents(), Decide(old(db.Contents()), Request.UpdateRole(actor, role, name), []), r)
    {
      var found := FindRole(role, actor);
      if !found {
        return Failure(RoleNotFound);
      }
      var wasNamed := db.roles[role].name;
      ApplyFirst(db.Contents(), RenameRole(role, name, wasNamed), []);
      var ok := repo.Rename(role, name, wasNamed);
      return Done(ok);
    }

    method DropRole(role: RoleId, actor: UserId) returns (r: Outcome)
      requires Valid() && actor in db.users
      modifies db
      ensures Ran(old(db.Contents()), db.Contents(), Decide(old(db.Contents()), Request.DropRole(actor, role), []), r)
    {
      var found := FindRole(role, actor);
      if !found {
        return Failure(RoleNotFound);
      }
      ApplyFirst(db.Contents(), DeleteRole(role), []);
      var ok := repo.Delete(role);
      return Done(ok);
    }

    // `add_permission_to_role`
    method ExtendRole(role: RoleId, perm: PermId, actor: UserId, order: seq<nat>) returns (r: Outcome)
      requires Valid() && actor in db.users
      modifies db
      ensures Ran(old(db.Contents()), db.Contents(), Decide(old(db.Contents()), Request.ExtendRole(actor, role, perm), order), r)
    {
      var found := FindRole(role, actor);
      if !found {
        return Failure(RoleNotFound);
      }
      if perm !in db.perms {
        return Failure(PermissionNotFound);
      }
      if perm in db.roles[role].perms {
        return Failure(PermissionAlreadyGranted);
      }
      var name := db.perms[perm].name;
      var expanded := ExpandImplied(db.cat.implies, [name]);
      assert Elements([name]) == {name};
      var implied := expanded - NamesOf(db.Contents(), db.roles[role].perms) - {name};
      if !db.users[actor].superuser {
        var allowed := GrantableMaskFor(actor);
        var requested := MaskFor(db.cat, {name} + implied);
        if requested.Failure? {
          return Failure(UnknownName);
        }
        if requested.value - allowed != {} {
          return Failure(GrantNotAllowed);
        }
      }
      var impliedPerms := Arrange(RowsNamed(db.Contents(), implied), order);
      var ok := AddAll(role, [perm] + impliedPerms, db.roles[role].mask);
      return Done(ok);
    }

    // The adds of `add_permission_to_role`: the permission itself, then the loop over the
    // implied ones, each on the role as reloaded after the one before.
    method AddAll(role: RoleId, perms: seq<PermId>, read: Mask) returns (ok: bool)
      requires Valid()
      modifies db
      ensures (db.Contents(), ok) == ApplyAll(old(db.Contents()), AddEach(role, perms, read))
    {
      var mask := read;
      for i := 0 to |perms|
        invariant ApplyAll(db.Contents(), AddEach(role, perms[i..], mask))
                  == ApplyAll(old(db.Contents()), AddEach(role, perms, read))
      {
        assert perms[i..][1..] == perms[i + 1..];
        AddEachStep(db.Contents(), role, perms[i..], mask);
        var added, _ := repo.AddPermission(role, perms[i], mask);
        if !added {
          return false;
        }
        mask := db.roles[role].mask;
      }
      return true;
    }

    // `remove_permission_from_role`
    method ReduceRole(role: RoleId, perm: PermId, actor: UserId) returns (r: Outcome)
      requires Valid() && actor in db.users
      modifies db
      ensures Ran(old(db.Contents()), db.Contents(), Decide(old(db.Contents()), Request.ReduceRole(actor, role, perm), []), r)
    {
      var found := FindRole(role, actor);
      if !found {
        return Failure(RoleNotFound);
      }
      if perm !in db.perms {
        return Failure(PermissionNotFound);
      }
      if perm !in db.roles[role].perms {
        return Failure(PermissionNotGranted);
      }
      var read := db.roles[role].mask;
      ApplyFirst(db.Contents(), RemovePermission(role, perm, read), []);
      var ok, _ := repo.RemovePermission(role, perm, read);
      return Done(ok);
    }

    method AddGrantableRole(role: RoleId, grantable: RoleId, actor: UserId) returns (r: Outcome)
      requires Valid() && actor in db.users
      modifies db
      ensures Ran(old(db.Contents()), db.Contents(),
                  Decide(old(db.Contents()), Request.AddGrantableRole(actor, role, grantable), []), r)
    {
      var found := FindRole(role, actor);
      if !found || grantable !in db.roles {
        return Failure(RoleNotFound);
      }
      if !db.users[actor].superuser && grantable !in GrantableRoles(db.Contents(), actor) {
        return Failure(GrantNotAllowed);
      }
      if (role, grantable) in db.grantRoles {
        return Failure(PermissionAlreadyGranted);
      }
      ApplyFirst(db.Contents(), LinkRole(role, grantable), []);
      var ok := repo.AddGrantableRole(role, grantable);
      return Done(ok);
    }

    method RemoveGrantableRole(role: RoleId, grantable: RoleId, actor: UserId) returns (r: Outcome)
      requires Valid() && actor in db.users
      modifies db
      ensures Ran(old(db.Contents()), db.Contents(),
                  Decide(old(db.Contents()), Request.RemoveGrantableRole(actor, role, grantable), []), r)
    {
      var found := FindRole(role, actor);
      if !found || grantable !in db.roles {
        return Failure(RoleNotFound);
      }
      if (role, grantable) !in db.grantRoles {
        return Failure(PermissionNotGranted);
      }
      ApplyFirst(db.Contents(), UnlinkRole(role, grantable), []);
      repo.RemoveGrantableRole(role, grantable);
      return Success(());
    }

    method AddGrantablePermission(role: RoleId, perm: PermId, actor: UserId) returns (r: Outcome)
      requires Valid() && actor in db.users
      modifies db
      ensures Ran(old(db.Contents()), db.Contents(),
                  Decide(old(db.Contents()), Request.AddGrantablePermission(actor, role, perm), []), r)
    {
      var found := FindRole(role, actor);
      if !found {
        return Failure(RoleNotFound);
      }
      if perm !in db.perms {
        return Failure(PermissionNotFound);
      }
      if !db.users[actor].superuser && perm !in GrantablePerms(db.Contents(), actor) {
        return Failure(GrantNotAllowed);
      }
      if (role, perm) in db.grantPerms {
        return Failure(PermissionAlreadyGranted);
      }
      ApplyFirst(db.Contents(), LinkPermission(role, perm), []);
      var ok := repo.AddGrantablePermission(role, perm);
      return Done(ok);
    }

    method RemoveGrantablePermission(role: RoleId, perm: PermId, actor: UserId) returns (r: Outcome)
      requires Valid() && actor in db.users
      modifies db
      ensures Ran(old(db.Contents()), db.Contents(),
                  Decide(old(db.Contents()), Request.RemoveGrantablePermission(actor, role, perm), []), r)
    {
      var found := FindRole(role, actor);
      if !found {
        return Failure(RoleNotFound);
      }
      if perm !in db.perms {
        return Failure(PermissionNotFound);
      }
      if (role, perm) !in db.grantPerms {
        return Failure(PermissionNotGranted);
      }
      ApplyFirst(db.Contents(), UnlinkPermission(role, perm), []);
      repo.RemoveGrantablePermission(role, perm);
      return Success(());
    }
  }

  class UserManagementService {
    const db: Store
    const users: UserRepository
    const roles: RoleRepository

    constructor (users: UserRepository, roles: RoleRepository)
      requires users.db == roles.db
      ensures this.users == users && this.roles == roles && db == users.db
    {
      this.users := users;
      this.roles := roles;
      db := users.db;
    }

    predicate Valid() {
      db == users.db && db == roles.db
    }

    // Loading the target and `_ensure_same_tenant`.
    method FindTarget(actor: UserId, target: UserId) returns (found: bool)
      requires actor in db.users
      ensures found <==> FindsUser(db.Contents(), actor, target)
    {
      if target !in db.users {
        return false;
      }
      return db.users[actor].superuser || db.users[target].tenant == db.users[actor].tenant;
    }

    method CreateUser(actor: UserId, user: UserId, username: string, email: string) returns (r: Outcome)
      requires Valid() && actor in db.users
      modifies db
      ensures Ran(old(db.Contents()), db.Contents(),
                  Decide(old(db.Contents()), Request.CreateUser(actor, user, username, email), []), r)
    {
      var clash := UserClash(db.Contents(), username, email);
      if clash.Some? {
        return Failure(clash.value);
      }
      ApplyFirst(db.Contents(), InsertUser(user, username, email, db.users[actor].tenant, false), []);
      var ok := users.Create(user, username, email, db.users[actor].tenant, false);
      return Done(ok);
    }

    method AssignRole(actor: UserId, target: UserId, role: RoleId) returns (r: Outcome)
      requires Valid() && actor in db.users
      modifies db
      ensures Ran(old(db.Contents()), db.Contents(), Decide(old(db.Contents()), GiveRole(actor, target, role), []), r)
    {
      if !CanGrantRole(db.Contents(), actor, role) {
        return Failure(GrantNotAllowed);
      }
      if role !in db.roles {
        return Failure(RoleNotFound);
      }
      var found := FindTarget(actor, target);
      if !found {
        return Failure(UserNotFound);
      }
      if (target, role) in db.userRoles {
        return Failure(RoleAlreadyAssigned);
      }
      ApplyFirst(db.Contents(), Commit.AssignRole(role, target), []);
      var ok, _ := roles.AssignToUser(role, target);
      return Done(ok);
    }

    method RemoveRole(actor: UserId, target: UserId, role: RoleId) returns (r: Outcome)
      requires Valid() && actor in db.users
      modifies db
      ensures Ran(old(db.Contents()), db.Contents(), Decide(old(db.Contents()), TakeRole(actor, target, role), []), r)
    {
      if !CanGrantRole(db.Contents(), actor, role) {
        return Failure(GrantNotAllowed);
      }
      if role !in db.roles {
        return Failure(RoleNotFound);
      }
      var found := FindTarget(actor, target);
      if !found {
        return Failure(UserNotFound);
      }
      if (target, role) !in db.userRoles {
        return Failure(RoleNotAssigned);
      }
      ApplyFirst(db.Contents(), Commit.RemoveRole(role, target), []);
      var _ := roles.RemoveFromUser(role, target);
      return Success(());
    }

    method GrantPermission(actor: UserId, target: UserId, perm: PermId) returns (r: Outcome)
      requires Valid() && actor in db.users
      modifies db
      ensures Ran(old(db.Contents()), db.Contents(), Decide(old(db.Contents()), GivePermission(actor, target, perm), []), r)
    {
      if !CanGrantPermission(db.Contents(), actor, perm) {
        return Failure(GrantNotAllowed);
      }
      if perm !in db.perms {
        return Failure(PermissionNotFound);
      }
      var found := FindTarget(actor, target);
      if !found {
        return Failure(UserNotFound);
      }
      if (target, perm) in db.userPerms {
        return Failure(PermissionAlreadyGranted);
      }
      ApplyFirst(db.Contents(), Commit.GrantPermission(target, perm), []);
      var ok, _ := users.GrantPermission(target, perm);
      return Done(ok);
    }

    method RevokePermission(actor: UserId, target: UserId, perm: PermId) returns (r: Outcome)
      requires Valid() && actor in db.users
      modifies db
      ensures Ran(old(db.Contents()), db.Contents(), Decide(old(db.Contents()), TakePermission(actor, target, perm), []), r)
    {
      if !CanGrantPermission(db.Contents(), actor, perm) {
        return Failure(GrantNotAllowed);
      }
      if perm !in db.perms {
        return Failure(PermissionNotFound);
      }
      var found := FindTarget(actor, target);
      if !found {
        return Failure(UserNotFound);
      }
      if (target, perm) !in db.userPerms {
        return Failure(PermissionNotGranted);
      }
      ApplyFirst(db.Contents(), Commit.RevokePermission(target, perm), []);
      var ok, _ := users.RevokePermission(target, perm);
      return Done(ok);
    }

    method SetUserActive(actor: UserId, target: UserId, active: bool) returns (r: Outcome)
      requires Valid() && actor in db.users
      modifies db
      ensures Ran(old(db.Contents()), db.Contents(), Decide(old(db.Contents()), ActivateUser(actor, target, active), []), r)
    {
      var found := FindTarget(actor, target);
      if !found {
        return Failure(UserNotFound);
      }
      var wasActive := db.users[target].active;
      ApplyFirst(db.Contents(), Commit.SetUserActive(target, active, wasActive), []);
      var ok, _ := users.SetActive(target, active, wasActive);
      return Done(ok);
    }
  }

  class TenantService {
    const db: Store
    const tenants: TenantRepository
    const roles: RoleRepository
    const users: UserRepository

    constructor (tenants: TenantRepository, roles: RoleRepository, users: UserRepository)
      requires tenants.db == roles.db == users.db
      ensures this.tenants == tenants && this.roles == roles && this.users == users && db == tenants.db
    {
      this.tenants := tenants;
      this.roles := roles;
      this.users := users;
      db := tenants.db;
    }

    predicate Valid() {
      db == tenants.db && db == roles.db && db == users.db
    }

    method Ceiling(allowed: Option<seq<string>>) returns (r: Result<Mask, UnknownPermission>)
      ensures r == CeilingOf(db.cat, allowed)
    {
      if allowed.None? {
        return Success(TenantRoleMask(db.cat));
      }
      r := ComputeMaskFor(db.cat, allowed.value);
      if r.Success? {
        r := Success(r.value * TenantRoleMask(db.cat));
      }
    }

    method CreateTenantWithAdmin(actor: UserId, tenant: TenantId, name: string, admin: UserId, username: string,
                                 email: string, allowed: Option<seq<string>>) returns (r: Outcome)
      requires Valid() && actor in db.users
      modifies db
      ensures Ran(old(db.Contents()), db.Contents(),
                  Decide(old(db.Contents()), CreateTenant(actor, tenant, name, admin, username, email, allowed), []), r)
    {
      if !db.users[actor].superuser {
        return Failure(SuperuserRequired);
      }
      if exists t :: t in db.tenants && db.tenants[t].name == name {
        return Failure(TenantNameExists);
      }
      var clash := UserClash(db.Contents(), username, email);
      if clash.Some? {
        return Failure(clash.value);
      }
      var ceiling := Ceiling(allowed);
      if ceiling.Failure? {
        return Failure(UnknownName);
      }
      var ok := Bootstrap(tenant, name, admin, username, email, ceiling.value);
      return Done(ok);
    }

    // The four writes, in order.
    method Bootstrap(tenant: TenantId, name: string, admin: UserId, username: string, email: string, ceiling: Mask)
      returns (ok: bool)
      requires Valid()
      modifies db
      ensures (db.Contents(), ok)
              == ApplyAll(old(db.Contents()),
                          BootstrapCommits(old(db.nextRole), tenant, name, admin, username, email, ceiling))
    {
      ghost var role := db.nextRole;
      ghost var last := [Commit.AssignRole(role, admin)];
      ghost var third := [InsertUser(admin, username, email, Some(tenant), false)] + last;
      ghost var second := [CreateRootRole(role, tenant, ceiling)] + third;
      assert BootstrapCommits(role, tenant, name, admin, username, email, ceiling)
             == [InsertTenant(tenant, name, ceiling)] + second;
      ApplyFirst(db.Contents(), InsertTenant(tenant, name, ceiling), second);
      ok := tenants.Create(tenant, name, ceiling);
      if !ok {
        return;
      }
      NothingToReload(db.Contents(), second);
      ApplyFirst(db.Contents(), CreateRootRole(role, tenant, ceiling), third);
      var id;
      id, ok := roles.CreateRootTenantRole(tenant, ceiling);
      if !ok {
        return;
      }
      NothingToReload(db.Contents(), third);
      ApplyFirst(db.Contents(), InsertUser(admin, username, email, Some(tenant), false), last);
      ok := users.Create(admin, username, email, Some(tenant), false);
      if !ok {
        return;
      }
      NothingToReload(db.Contents(), last);
      ApplyFirst(db.Contents(), Commit.AssignRole(id, admin), []);
      var given, _ := roles.AssignToUser(id, admin);
      return given;
    }

    method SetTenantActive(actor: UserId, tenant: TenantId, active: bool) returns (r: Outcome)
      requires Valid() && actor in db.users
      modifies db
      ensures Ran(old(db.Contents()), db.Contents(), Decide(old(db.Contents()), ActivateTenant(actor, tenant, active), []), r)
    {
      if !db.users[actor].superuser {
        return Failure(SuperuserRequired);
      }
      if tenant !in db.tenants {
        return Failure(TenantNotFound);
      }
      var wasActive := db.tenants[tenant].active;
      ApplyFirst(db.Contents(), Commit.SetTenantActive(tenant, active, wasActive), []);
      var ok, _ := tenants.SetActive(tenant, active, wasActive);
      return Done(ok);
    }

    method UpdateTenantPermissions(actor: UserId, tenant: TenantId, names: seq<string>) returns (r: Outcome)
      requires Valid() && actor in db.users && KeysUnique(db.Contents())
      modifies db
      ensures Ran(old(db.Contents()), db.Contents(), Decide(old(db.Contents()), UpdateCeiling(actor, tenant, names), []), r)
    {
      if !db.users[actor].superuser {
        return Failure(SuperuserRequired);
      }
      if tenant !in db.tenants {
        return Failure(TenantNotFound);
      }
      var ceiling := Ceiling(Some(names));
      if ceiling.Failure? {
        return Failure(UnknownName);
      }
      var read := db.tenants[tenant].allowed;
      ghost var sync := [SyncRootRole(tenant, ceiling.value)];
      ApplyFirst(db.Contents(), SetCeiling(tenant, ceiling.value, read), sync);
      var ok := tenants.SetAllowedPermissionMask(tenant, ceiling.value, read);
      NothingToReload(db.Contents(), sync);
      ApplyFirst(db.Contents(), SyncRootRole(tenant, ceiling.value), []);
      var _ := roles.SyncRootTenantRolePermissions(tenant, ceiling.value);
      return Success(());
    }
  }
}
