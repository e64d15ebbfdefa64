/**
 * The repositories over the tables (app/repositories): each method is one transaction,
 * proved to be the commit of module Database it stands for, and returns the events its
 * caller publishes once the transaction is committed.
 */
module Repositories {
  import opened Wrappers
  import opened Registry
  import opened Database
  import opened Delegation
  import opened AuthzCache

  class Store {
    const cat: Catalog
    var users: map<UserId, User>
    var roles: map<RoleId, Role>
    var perms: map<PermId, Permission>
    var tenants: map<TenantId, Tenant>
    var userRoles: set<(UserId, RoleId)>
    var userPerms: set<(UserId, PermId)>
    var grantRoles: set<(RoleId, RoleId)>
    var grantPerms: set<(RoleId, PermId)>
    var nextRole: RoleId

    function Contents(): Db
      reads this
    {
      Db(cat, users, roles, perms, tenants, userRoles, userPerms, grantRoles, grantPerms, nextRole)
    }

    constructor (cat: Catalog)
      ensures Contents() == Db(cat, map[], map[], map[], map[], {}, {}, {}, {}, 0)
    {
      this.cat := cat;
      users, roles, perms, tenants := map[], map[], map[], map[];
      userRoles, userPerms, grantRoles, grantPerms := {}, {}, {}, {};
      nextRole := 0;
    }
  }

  // The transaction is the given commit, or rolled back where the schema refuses it.
  ghost predicate Committed(before: Db, after: Db, c: Commit, ok: bool, events: seq<Event>) {
    if Accepts(before, c)
    then ok && after == Apply(before, c).value && Elements(events) == EventsOf(before, c) && NoDuplicates(events)
    else !ok && after == before && events == []
  }

  class RoleRepository {
    const db: Store

    constructor (db: Store)
      ensures this.db == db
    {
      this.db := db;
    }

    // `_bump_perm_version`: one UPDATE ... RETURNING, and an event for each row it returned.
    method BumpPermVersion(us: set<UserId>) returns (events: seq<Event>)
      modifies db`users
      ensures db.users == Bump(old(db.users), us)
      ensures Elements(events) == set u | u in us && u in db.users :: PermVersion(u, db.users[u].version)
      ensures NoDuplicates(events)
    {
      db.users := map u | u in db.users ::
        if u in us then db.users[u].(version := db.users[u].version + 1) else db.users[u];
      events := [];
      var rows := us * db.users.Keys;
      ghost var all := rows;
      while rows != {}
        invariant rows <= all == us * db.users.Keys
        invariant Elements(events) == set u | u in all - rows :: PermVersion(u, db.users[u].version)
        invariant NoDuplicates(events)
      {
        var u :| u in rows;
        var e := PermVersion(u, db.users[u].version);
        assert e !in Elements(events);
        events := events + [e];
        assert all - (rows - {u}) == (all - rows) + {u};
        assert Elements(events) == Elements(events[..|events| - 1]) + {e};
        rows := rows - {u};
      }
    }

    method Create(name: string, tenant: Option<TenantId>, permissions: set<PermId>, mask: Mask)
      returns (id: RoleId, ok: bool)
      modifies db
      ensures id == old(db.nextRole)
      ensures Committed(old(db.Contents()), db.Contents(),
                        InsertRole(id, Role(name, tenant, mask, permissions)), ok, [])
    {
      id := db.nextRole;
      ok := id !in db.roles && TenantExists(db.Contents(), tenant) && permissions <= db.perms.Keys
            && !RoleNameTaken(db.Contents(), name, tenant);
      if ok {
        db.roles := db.roles[id := Role(name, tenant, mask, permissions)];
        db.nextRole := id + 1;
        assert Bump(db.users, {}) == db.users;
      }
    }

    method CreateRootTenantRole(tenant: TenantId, allowed: Mask) returns (id: RoleId, ok: bool)
      modifies db
      ensures id == old(db.nextRole)
      ensures Committed(old(db.Contents()), db.Contents(), CreateRootRole(id, tenant, allowed), ok, [])
    {
      id := db.nextRole;
      ok := id !in db.roles && tenant in db.tenants && !RoleNameTaken(db.Contents(), ROOT_ROLE, Some(tenant));
      if ok {
        var effective := allowed * TenantRoleMask(db.cat);
        var rows := set p | p in db.perms && db.perms[p].name !in db.cat.superuserOnly
                            && db.perms[p].bit.Some? && db.perms[p].bit.value in effective;
        db.roles := db.roles[id := Role(ROOT_ROLE, Some(tenant), effective, rows)];
        db.grantPerms := db.grantPerms + PermLinks(id, rows);
        db.nextRole := id + 1;
        assert rows == RootRows(old(db.Contents()), allowed);
        assert Bump(db.users, {}) == db.users;
      }
    }

    method FindRootRole(tenant: TenantId) returns (role: Option<RoleId>)
      requires KeysUnique(db.Contents())
      ensures role == RootRole(db.Contents(), tenant)
    {
      var todo := db.roles.Keys;
      while todo != {}
        invariant todo <= db.roles.Keys
        invariant forall r | r in db.roles.Keys - todo :: !IsRootRole(db.Contents(), tenant, r)
      {
        var r :| r in todo;
        if IsRootRole(db.Contents(), tenant, r) {
          return Some(r);
        }
        todo := todo - {r};
      }
      return None;
    }

    method SyncRootTenantRolePermissions(tenant: TenantId, allowed: Mask) returns (events: seq<Event>)
      requires KeysUnique(db.Contents())
      modifies db
      ensures Committed(old(db.Contents()), db.Contents(), SyncRootRole(tenant, allowed), true, events)
    {
      var found := FindRootRole(tenant);
      if found.None? {
        assert Bump(db.users, {}) == db.users;
        return [];
      }
      var role := found.value;
      var effective := allowed * TenantRoleMask(db.cat);
      var rows := set p | p in db.perms && db.perms[p].name !in db.cat.superuserOnly
                          && db.perms[p].bit.Some? && db.perms[p].bit.value in effective;
      assert rows == RootRows(old(db.Contents()), allowed);
      db.roles := db.roles[role := db.roles[role].(perms := rows, mask := effective)];
      db.grantPerms := set l | l in db.grantPerms && l.0 != role;
      db.grantPerms := db.grantPerms + PermLinks(role, rows);
      events := BumpPermVersion(Holders(db.Contents(), role));
    }

    // `wasNamed` is the name of the role object the caller loaded.
    method Rename(role: RoleId, name: string, wasNamed: string) returns (ok: bool)
      modifies db
      ensures Committed(old(db.Contents()), db.Contents(), RenameRole(role, name, wasNamed), ok, [])
    {
      if role !in db.roles {
        return false;
      }
      var column := if name == wasNamed then db.roles[role].name else name;
      ok := column == db.roles[role].name || !RoleNameTaken(db.Contents(), name, db.roles[role].tenant);
      if ok {
        db.roles := db.roles[role := db.roles[role].(name := column)];
        assert Bump(db.users, {}) == db.users;
      }
    }

    // The ORM clears every link table of the role with it; nobody's version moves.
    method Delete(role: RoleId) returns (ok: bool)
      modifies db
      ensures Committed(old(db.Contents()), db.Contents(), DeleteRole(role), ok, [])
    {
      ok := role in db.roles;
      if ok {
        db.roles := db.roles - {role};
        db.userRoles := set l | l in db.userRoles && l.1 != role;
        db.grantRoles := set l | l in db.grantRoles && l.0 != role && l.1 != role;
        db.grantPerms := set l | l in db.grantPerms && l.0 != role;
        assert Bump(db.users, {}) == db.users;
      }
    }

    method AssignToUser(role: RoleId, user: UserId) returns (ok: bool, events: seq<Event>)
      modifies db
      ensures Committed(old(db.Contents()), db.Contents(), AssignRole(role, user), ok, events)
    {
      ok := role in db.roles && user in db.users && (user, role) !in db.userRoles;
      if !ok {
        return ok, [];
      }
      db.userRoles := db.userRoles + {(user, role)};
      events := BumpPermVersion({user});
    }

    method RemoveFromUser(role: RoleId, user: UserId) returns (events: seq<Event>)
      modifies db
      ensures Committed(old(db.Contents()), db.Contents(), RemoveRole(role, user), true, events)
    {
      db.userRoles := db.userRoles - {(user, role)};
      events := BumpPermVersion({user});
    }

    // `read` is the mask of the role object the caller loaded.
    method AddPermission(role: RoleId, perm: PermId, read: Mask) returns (ok: bool, events: seq<Event>)
      modifies db
      ensures Committed(old(db.Contents()), db.Contents(), Commit.AddPermission(role, perm, read), ok, events)
    {
      ok := role in db.roles && perm in db.perms && perm !in db.roles[role].perms;
      if !ok {
        return ok, [];
      }
      var row := db.roles[role];
      row := row.(perms := row.perms + {perm});
      var value := read;
      if db.perms[perm].bit.Some? {
        value := read + {db.perms[perm].bit.value};
      }
      if value != read {
        row := row.(mask := value);
      }
      db.roles := db.roles[role := row];
      assert read + {} == read;
      assert Holders(db.Contents(), role) == Holders(old(db.Contents()), role);
      events := BumpPermVersion(Holders(db.Contents(), role));
    }

    method RemovePermission(role: RoleId, perm: PermId, read: Mask) returns (ok: bool, events: seq<Event>)
      modifies db
      ensures Committed(old(db.Contents()), db.Contents(), Commit.RemovePermission(role, perm, read), ok, events)
    {
      ok := role in db.roles && perm in db.perms && perm in db.roles[role].perms;
      if !ok {
        return ok, [];
      }
      var row := db.roles[role];
      row := row.(perms := row.perms - {perm});
      var value := read;
      if db.perms[perm].bit.Some? {
        value := read - {db.perms[perm].bit.value};
      }
      if value != read {
        row := row.(mask := value);
      }
      db.roles := db.roles[role := row];
      assert read - {} == read;
      assert Holders(db.Contents(), role) == Holders(old(db.Contents()), role);
      events := BumpPermVersion(Holders(db.Contents(), role));
    }

    method AddGrantableRole(role: RoleId, grantable: RoleId) returns (ok: bool)
      modifies db
      ensures Committed(old(db.Contents()), db.Contents(), LinkRole(role, grantable), ok, [])
    {
      ok := role in db.roles && grantable in db.roles && (role, grantable) !in db.grantRoles;
      if ok {
        db.grantRoles := db.grantRoles + {(role, grantable)};
        assert Bump(db.users, {}) == db.users;
      }
    }

    method RemoveGrantableRole(role: RoleId, grantable: RoleId)
      modifies db
      ensures Committed(old(db.Contents()), db.Contents(), UnlinkRole(role, grantable), true, [])
    {
      db.grantRoles := db.grantRoles - {(role, grantable)};
      assert Bump(db.users, {}) == db.users;
    }

    method AddGrantablePermission(role: RoleId, perm: PermId) returns (ok: bool)
      modifies db
      ensures Committed(old(db.Contents()), db.Contents(), LinkPermission(role, perm), ok, [])
    {
      ok := role in db.roles && perm in db.perms && (role, perm) !in db.grantPerms;
      if ok {
        db.grantPerms := db.grantPerms + {(role, perm)};
        assert Bump(db.users, {}) == db.users;
      }
    }

    method RemoveGrantablePermission(role: RoleId, perm: PermId)
      modifies db
      ensures Committed(old(db.Contents()), db.Contents(), UnlinkPermission(role, perm), true, [])
    {
      db.grantPerms := db.grantPerms - {(role, perm)};
      assert Bump(db.users, {}) == db.users;
    }

    // The loop of `get_grantable_permission_mask` over the bits the query returned.
    method GetGrantablePermissionMask(actor: UserId) returns (mask: Mask)
      ensures mask == RowBits(db.Contents(), GrantablePerms(db.Contents(), actor))
    {
      mask := {};
      var perms := GrantablePerms(db.Contents(), actor);
      var rows := perms;
      while rows != {}
        invariant rows <= perms == GrantablePerms(db.Contents(), actor)
        invariant mask == RowBits(db.Contents(), perms - rows)
      {
        var p :| p in rows;
        if p in db.perms && db.perms[p].bit.Some? {
          mask := mask + {db.perms[p].bit.value};
        }
        assert perms - (rows - {p}) == (perms - rows) + {p};
        rows := rows - {p};
      }
      assert perms - rows == perms;
    }
  }

  class UserRepository {
    const db: Store

    constructor (db: Store)
      ensures this.db == db
    {
      this.db := db;
    }

    method Create(user: UserId, username: string, email: string, home: Option<TenantId>, superuser: bool)
      returns (ok: bool)
      modifies db
      ensures Committed(old(db.Contents()), db.Contents(), InsertUser(user, username, email, home, superuser), ok, [])
    {
      ok := user !in db.users && TenantExists(db.Contents(), home)
            && forall v | v in db.users :: db.users[v].username != username && db.users[v].email != email;
      if ok {
        db.users := db.users[user := User(username, email, home, superuser, true, FIRST_VERSION)];
      }
    }

    method GrantPermission(user: UserId, perm: PermId) returns (ok: bool, events: seq<Event>)
      modifies db
      ensures Committed(old(db.Contents()), db.Contents(), Commit.GrantPermission(user, perm), ok, events)
    {
      ok := user in db.users && perm in db.perms && (user, perm) !in db.userPerms;
      if !ok {
        return ok, [];
      }
      db.userPerms := db.userPerms + {(user, perm)};
      db.users := db.users[user := db.users[user].(version := db.users[user].version + 1)];
      assert db.users == Bump(old(db.users), {user});
      events := [PermVersion(user, db.users[user].version)];
    }

    method RevokePermission(user: UserId, perm: PermId) returns (ok: bool, events: seq<Event>)
      modifies db
      ensures Committed(old(db.Contents()), db.Contents(), Commit.RevokePermission(user, perm), ok, events)
    {
      ok := user in db.users && perm in db.perms && (user, perm) in db.userPerms;
      if !ok {
        return ok, [];
      }
      db.userPerms := db.userPerms - {(user, perm)};
      db.users := db.users[user := db.users[user].(version := db.users[user].version + 1)];
      assert db.users == Bump(old(db.users), {user});
      events := [PermVersion(user, db.users[user].version)];
    }

    // `wasActive` is the flag of the user object the caller loaded. The event says what was
    // asked for, written or not.
    method SetActive(user: UserId, active: bool, wasActive: bool) returns (ok: bool, events: seq<Event>)
      modifies db
      ensures Committed(old(db.Contents()), db.Contents(), SetUserActive(user, active, wasActive), ok, events)
    {
      ok := user in db.users;
      if !ok {
        return ok, [];
      }
      if active != wasActive {
        db.users := db.users[user := db.users[user].(active := active)];
      }
      events := [UserStatus(user, active)];
    }
  }

  class TenantRepository {
    const db: Store

    constructor (db: Store)
      ensures this.db == db
    {
      this.db := db;
    }

    method Create(tenant: TenantId, name: string, allowed: Mask) returns (ok: bool)
      modifies db
      ensures Committed(old(db.Contents()), db.Contents(), InsertTenant(tenant, name, allowed), ok, [])
    {
      ok := tenant !in db.tenants && forall s | s in db.tenants :: db.tenants[s].name != name;
      if ok {
        db.tenants := db.tenants[tenant := Tenant(name, true, allowed)];
        assert Bump(db.users, {}) == db.users;
      }
    }

    // `read` is the ceiling of the tenant object the caller loaded.
    method SetAllowedPermissionMask(tenant: TenantId, mask: Mask, read: Mask) returns (ok: bool)
      modifies db
      ensures Committed(old(db.Contents()), db.Contents(), SetCeiling(tenant, mask, read), ok, [])
    {
      ok := tenant in db.tenants;
      if ok {
        if mask != read {
          db.tenants := db.tenants[tenant := db.tenants[tenant].(allowed := mask)];
        }
        assert Bump(db.users, {}) == db.users;
      }
    }

    // `wasActive` is the flag of the tenant object the caller loaded.
    method SetActive(tenant: TenantId, active: bool, wasActive: bool) returns (ok: bool, events: seq<Event>)
      modifies db
      ensures Committed(old(db.Contents()), db.Contents(), SetTenantActive(tenant, active, wasActive), ok, events)
    {
      ok := tenant in db.tenants;
      if !ok {
        return ok, [];
      }
      if active != wasActive {
        db.tenants := db.tenants[tenant := db.tenants[tenant].(active := active)];
      }
      assert Bump(db.users, {}) == db.users;
      events := [TenantStatus(tenant, active)];
    }
  }

  // ------------------------------------------------------------------
  // The start-up permission sync (app/cli/sync_permissions.py)
  // ------------------------------------------------------------------

  // A row that has the name or the bit of a catalog entry, but not both.
  predicate Disagrees(db: Db, p: PermId, name: string)
    requires p in db.perms && name in db.cat.bits
  {
    (db.perms[p].name == name) != (db.perms[p].bit == Some(db.cat.bits[name]))
  }

  predicate Conflicts(db: Db, p: PermId) {
    p in db.perms && exists n :: n in db.cat.bits && Disagrees(db, p, n)
  }

  ghost predicate HasRow(db: Db, name: string) {
    exists p :: IsRowOf(db, p, name)
  }

  datatype SyncError = RegistryMismatch | BitTaken

  // Looks a catalog entry up by name, and commits a row for it when there is none.
  method EnsureRow(db: Store, name: string, id: PermId) returns (r: Result<bool, SyncError>)
    requires KeysUnique(db.Contents()) && name in db.cat.bits && id !in db.perms
    modifies db`perms
    ensures match r
            case Success(created) =>
              && HasRow(db.Contents(), name)
              && if created
                 then Committed(old(db.Contents()), db.Contents(), InsertPermission(id, name, db.cat.bits[name]), true, [])
                 else db.Contents() == old(db.Contents())
            case Failure(_) =>
              && db.Contents() == old(db.Contents())
              && exists p :: p in db.perms && Disagrees(db.Contents(), p, name)
    ensures r == Success(true) ==> db.perms.Keys == old(db.perms.Keys) + {id}
  {
    var bit := db.cat.bits[name];
    if p :| p in db.perms && db.perms[p].name == name {
      if db.perms[p].bit != Some(bit) {
        assert Disagrees(db.Contents(), p, name);
        return Failure(RegistryMismatch);
      }
      assert IsRowOf(db.Contents(), p, name);
      return Success(false);
    }
    if p :| p in db.perms && db.perms[p].bit == Some(bit) {
      assert Disagrees(db.Contents(), p, name);
      return Failure(BitTaken);
    }
    db.perms := db.perms[id := Permission(name, Some(bit))];
    assert IsRowOf(db.Contents(), id, name);
    assert Bump(db.users, {}) == db.users;
    return Success(true);
  }

  // The table part way: rows were only added, each mirroring an entry already visited.
  ghost predicate Progress(first: Db, now: Db, done: set<string>) {
    && Wf(now) && now == first.(perms := now.perms)
    && (forall p | p in first.perms :: p in now.perms && now.perms[p] == first.perms[p])
    && (forall p | p in now.perms && p !in first.perms :: now.perms[p].name in done && IsRowOf(now, p, now.perms[p].name))
    && (forall n | n in done :: n in now.cat.bits && HasRow(now, n))
  }

  /**
   * Creates the missing rows, one commit each, and stops at the first disagreement: it
   * succeeds exactly when no row disagrees with the catalog, and then the table mirrors it.
   * `next` is where the key sequence stands.
   */
  method SyncPermissions(db: Store, next: PermId) returns (r: Result<nat, SyncError>)
    requires Wf(db.Contents()) && Sound(db.cat) && forall p | p in db.perms :: p < next
    modifies db`perms
    ensures Wf(db.Contents())
    ensures forall p | p in old(db.perms) :: p in db.perms && db.perms[p] == old(db.perms)[p]
    ensures forall p | p in db.perms && p !in old(db.perms) :: IsRowOf(db.Contents(), p, db.perms[p].name)
    ensures r.Success? ==> Synced(db.Contents()) && |db.perms| == |old(db.perms)| + r.value
    ensures r.Success? <==> forall p :: !Conflicts(old(db.Contents()), p)
  {
    ghost var first := db.Contents();
    ghost var done;
    r, done := VisitEntries(db, next);
    if r.Success? {
      NoConflict(first, db.Contents());
    }
  }

  method VisitEntries(db: Store, next: PermId) returns (r: Result<nat, SyncError>, ghost done: set<string>)
    requires Wf(db.Contents()) && Sound(db.cat) && forall p | p in db.perms :: p < next
    modifies db`perms
    ensures Progress(old(db.Contents()), db.Contents(), done)
    ensures match r
            case Success(created) => done == db.cat.bits.Keys && |db.perms| == |old(db.perms)| + created
            case Failure(_) => exists p :: Conflicts(old(db.Contents()), p)
  {
    var todo, created := db.cat.bits.Keys, 0;
    ghost var first := db.Contents();
    done := {};
    while todo != {}
      invariant todo + done == db.cat.bits.Keys && todo !! done
      invariant Progress(first, db.Contents(), done)
      invariant |db.perms| == |first.perms| + created && forall p | p in db.perms :: p < next + created
      decreases todo
    {
      var name :| name in todo;
      var row := VisitEntry(db, name, next + created, first, done);
      if row.Failure? {
        return Failure(row.error), done;
      }
      if row.value {
        created := created + 1;
      }
      todo, done := todo - {name}, done + {name};
    }
    return Success(created), done;
  }

  predicate Below(ids: set<PermId>, bound: PermId) {
    forall p | p in ids :: p < bound
  }

  lemma OneMoreId(ids: set<PermId>, id: PermId)
    requires Below(ids, id)
    ensures id !in ids && |ids + {id}| == |ids| + 1 && Below(ids + {id}, id + 1)
  {
  }

  method VisitEntry(db: Store, name: string, id: PermId, ghost first: Db, ghost done: set<string>)
    returns (r: Result<bool, SyncError>)
    requires Progress(first, db.Contents(), done) && Sound(db.cat)
    requires name in db.cat.bits && name !in done && forall p | p in db.perms :: p < id
    modifies db`perms
    ensures match r
            case Success(created) =>
              && Progress(first, db.Contents(), done + {name})
              && var n := if created then 1 else 0;
                 |db.perms.Keys| == |old(db.perms.Keys)| + n && forall p | p in db.perms :: p < id + n
            case Failure(_) => Progress(first, db.Contents(), done) && exists p :: Conflicts(first, p)
  {
    ghost var before := db.Contents();
    OneMoreId(db.perms.Keys, id);
    r := EnsureRow(db, name, id);
    match r
    case Success(created) =>
      if created {
        ProgressKept(first, before, done, id, name);
      }
    case Failure(_) =>
      ghost var p :| p in before.perms && Disagrees(before, p, name);
      ConflictWasThere(first, before, done, p, name);
  }

  // A row this sync made cannot be the one that disagrees with another entry.
  lemma ConflictWasThere(first: Db, now: Db, done: set<string>, p: PermId, name: string)
    requires Progress(first, now, done) && Sound(now.cat) && name in now.cat.bits && name !in done
    requires p in now.perms && Disagrees(now, p, name)
    ensures Conflicts(first, p)
  {
  }

  lemma ProgressKept(first: Db, before: Db, done: set<string>, id: PermId, name: string)
    requires Progress(first, before, done) && name in before.cat.bits && id !in before.perms
    requires Accepts(before, InsertPermission(id, name, before.cat.bits[name]))
    ensures Progress(first, Apply(before, InsertPermission(id, name, before.cat.bits[name])).value, done + {name})
  {
    var c := InsertPermission(id, name, before.cat.bits[name]);
    var after := Apply(before, c).value;
    ApplyKeepsWf(before, c);
    assert Bump(before.users, {}) == before.users;
    forall n | n in done + {name} ensures HasRow(after, n) {
      if n == name {
        assert IsRowOf(after, id, n);
      } else {
        var p :| IsRowOf(before, p, n);
        assert IsRowOf(after, p, n);
      }
    }
  }

  // A synced table with unique names and bits has no conflicting row, old or new.
  lemma NoConflict(first: Db, last: Db)
    requires Progress(first, last, last.cat.bits.Keys) && Sound(last.cat)
    ensures Synced(last) && forall p :: !Conflicts(first, p)
  {
  }
}
