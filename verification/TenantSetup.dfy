/**
 * What a tenant's ceiling means for the people who hold its root role: as soon as the
 * ceiling is set or moved, they may author and hand out exactly what it allows.
 */
module TenantSetup {
  import opened Wrappers
  import opened Registry
  import opened Database
  import opened Delegation
  import opened Services

  // The root role's rows and mask both mirror the ceiling.
  ghost predicate RootMirrors(db: Db, t: TenantId, r: RoleId, ceiling: Mask) {
    && IsRootRole(db, t, r) && db.roles[r].mask == ceiling
    && t in db.tenants && db.tenants[t].allowed == ceiling
    && RowBits(db, db.roles[r].perms) == ceiling
    && forall p | p in db.roles[r].perms :: (r, p) in db.grantPerms
  }

  // A holder may then put into a role exactly the ceiling, whatever else they hold.
  lemma HolderMayGrantTheCeiling(db: Db, t: TenantId, r: RoleId, ceiling: Mask, u: UserId)
    requires RootMirrors(db, t, r, ceiling)
    requires u in db.users && db.users[u].tenant == Some(t) && (u, r) in db.userRoles
    ensures GrantableMask(db, u) == ceiling
  {
  }

  // Syncing a root role makes it mirror the ceiling and bumps each of its holders once.
  lemma SyncMirrors(db: Db, t: TenantId, r: RoleId, ceiling: Mask)
    requires Wf(db) && Synced(db) && IsRootRole(db, t, r) && t in db.tenants && db.tenants[t].allowed == ceiling
    requires ceiling <= TenantRoleMask(db.cat)
    ensures var next := Apply(db, SyncRootRole(t, ceiling)).value;
            && RootMirrors(next, t, r, ceiling)
            && next.userRoles == db.userRoles && next.users == Bump(db.users, Holders(db, r))
  {
  }

  lemma MovedCeilingMirrors(db: Db, t: TenantId, r: RoleId, ceiling: Mask, u: UserId)
    requires Wf(db) && Synced(db) && IsRootRole(db, t, r) && t in db.tenants && ceiling <= TenantRoleMask(db.cat)
    requires u in db.users && (u, r) in db.userRoles
    ensures var (end, ok) := ApplyAll(db, [SetCeiling(t, ceiling, db.tenants[t].allowed), SyncRootRole(t, ceiling)]);
            && ok && RootMirrors(end, t, r, ceiling)
            && u in end.users && (u, r) in end.userRoles
            && end.users[u] == db.users[u].(version := db.users[u].version + 1)
  {
    var move, sync := SetCeiling(t, ceiling, db.tenants[t].allowed), SyncRootRole(t, ceiling);
    var mid := Apply(db, move).value;
    assert mid.users == db.users by { assert Bump(db.users, {}) == db.users; }
    ApplyKeepsWf(db, move);
    SyncedKept(db, move);
    SyncMirrors(mid, t, r, ceiling);
    assert u in Holders(mid, r) by { assert (u, r) in mid.userRoles && (u, r).1 == r; }
    TwoApply(db, move, sync, mid);
  }

  lemma TwoApply(db: Db, a: Commit, b: Commit, mid: Db)
    requires Apply(db, a) == Some(mid) && Accepts(mid, b) && !b.AddPermission?
    ensures ApplyAll(db, [a, b]) == (Apply(mid, b).value, true)
  {
    assert [a, b] == [a] + [b];
    ApplyFirst(db, a, [b]);
    NothingToReload(mid, [b]);
    ApplyFirst(mid, b, []);
  }

  /**
   * A moved ceiling is usable at once: the request commits whole, and every holder of the
   * root role in the tenant may grant exactly the new ceiling and must refresh their token.
   */
  lemma CeilingTakesEffect(db: Db, actor: UserId, t: TenantId, names: seq<string>, r: RoleId, u: UserId)
    requires Wf(db) && Synced(db) && actor in db.users && IsRootRole(db, t, r)
    requires u in db.users && db.users[u].tenant == Some(t) && (u, r) in db.userRoles
    requires Decide(db, UpdateCeiling(actor, t, names), []).Success?
    ensures var ceiling := BitsOf(db.cat, Elements(names)) * TenantRoleMask(db.cat);
            var (end, ok) := ApplyAll(db, Decide(db, UpdateCeiling(actor, t, names), []).value);
            && ok && RootMirrors(end, t, r, ceiling)
            && u in end.users && GrantableMask(end, u) == ceiling
            && end.users[u].version == db.users[u].version + 1
  {
    var ceiling := BitsOf(db.cat, Elements(names)) * TenantRoleMask(db.cat);
    UpdateCeilingDecides(db, actor, t, names);
    MovedCeilingMirrors(db, t, r, ceiling, u);
    HolderMayGrantTheCeiling(ApplyAll(db, [SetCeiling(t, ceiling, db.tenants[t].allowed), SyncRootRole(t, ceiling)]).0,
                             t, r, ceiling, u);
  }

  lemma UpdateCeilingDecides(db: Db, actor: UserId, t: TenantId, names: seq<string>)
    requires actor in db.users && Decide(db, UpdateCeiling(actor, t, names), []).Success?
    ensures var ceiling := BitsOf(db.cat, Elements(names)) * TenantRoleMask(db.cat);
            && t in db.tenants
            && Decide(db, UpdateCeiling(actor, t, names), []).value
               == [SetCeiling(t, ceiling, db.tenants[t].allowed), SyncRootRole(t, ceiling)]
  {
  }

  // A new root role mirrors the ceiling it is created for.
  lemma CreateMirrors(db: Db, t: TenantId, r: RoleId, ceiling: Mask)
    requires Wf(db) && Synced(db) && t in db.tenants && db.tenants[t].allowed == ceiling
    requires ceiling <= TenantRoleMask(db.cat) && Accepts(db, CreateRootRole(r, t, ceiling))
    ensures RootMirrors(Apply(db, CreateRootRole(r, t, ceiling)).value, t, r, ceiling)
  {
  }

  // An active account of the tenant, at the version its one role left it.
  function NewAdmin(t: TenantId, username: string, email: string): User {
    User(username, email, Some(t), false, true, FIRST_VERSION + 1)
  }

  // Inserting and linking the admin leaves the mirror alone.
  lemma AdminKeepsMirror(db: Db, t: TenantId, r: RoleId, ceiling: Mask, admin: UserId, username: string, email: string)
    requires Wf(db) && RootMirrors(db, t, r, ceiling)
    requires Accepts(db, InsertUser(admin, username, email, Some(t), false))
    ensures var mid := Apply(db, InsertUser(admin, username, email, Some(t), false)).value;
            && Accepts(mid, AssignRole(r, admin))
            && var end := Apply(mid, AssignRole(r, admin)).value;
               && RootMirrors(end, t, r, ceiling)
               && end.userRoles == db.userRoles + {(admin, r)} && end.userPerms == db.userPerms
               && admin in end.users && end.users[admin] == NewAdmin(t, username, email) && end.tenants == db.tenants
  {
  }

  // The first two writes: the tenant and its root role, before anyone holds it.
  lemma NewRootMirrors(db: Db, t: TenantId, name: string, ceiling: Mask, rest: seq<Commit>) returns (two: Db)
    requires Wf(db) && Synced(db) && ceiling <= TenantRoleMask(db.cat)
    requires Accepts(db, InsertTenant(t, name, ceiling)) && forall c | c in rest :: !c.AddPermission?
    ensures Wf(two) && RootMirrors(two, t, db.nextRole, ceiling)
    ensures two.tenants == db.tenants[t := Tenant(name, true, ceiling)]
    ensures two.users == db.users && two.userRoles == db.userRoles && two.userPerms == db.userPerms
    ensures ApplyAll(db, [InsertTenant(t, name, ceiling), CreateRootRole(db.nextRole, t, ceiling)] + rest)
            == ApplyAll(two, rest)
  {
    var first, second := InsertTenant(t, name, ceiling), CreateRootRole(db.nextRole, t, ceiling);
    var one := Apply(db, first).value;
    assert Bump(db.users, {}) == db.users;
    ApplyKeepsWf(db, first);
    SyncedKept(db, first);
    NewTenantHasNoRole(db, t, name, ceiling);
    ApplyKeepsWf(one, second);
    CreateMirrors(one, t, db.nextRole, ceiling);
    two := Apply(one, second).value;
    assert [first, second] + rest == [first] + ([second] + rest);
    ApplyFirst(db, first, [second] + rest);
    NothingToReload(one, [second] + rest);
    ApplyFirst(one, second, rest);
    NothingToReload(two, rest);
  }

  // The last two: the admin, and the root role's only holder.
  lemma AdminHoldsTheCeiling(db: Db, t: TenantId, r: RoleId, ceiling: Mask, admin: UserId, username: string, email: string)
    requires Wf(db) && RootMirrors(db, t, r, ceiling)
    requires Accepts(db, InsertUser(admin, username, email, Some(t), false))
    ensures var (end, ok) := ApplyAll(db, [InsertUser(admin, username, email, Some(t), false), AssignRole(r, admin)]);
            && ok && RootMirrors(end, t, r, ceiling) && end.tenants == db.tenants
            && admin in end.users && end.users[admin] == NewAdmin(t, username, email)
            && GrantableMask(end, admin) == ceiling && EffectiveMask(end, admin) == ceiling
  {
    var first, second := InsertUser(admin, username, email, Some(t), false), AssignRole(r, admin);
    AdminKeepsMirror(db, t, r, ceiling, admin, username, email);
    var mid := Apply(db, first).value;
    var end := Apply(mid, second).value;
    HolderMayGrantTheCeiling(end, t, r, ceiling, admin);
    OnlyRole(db, end, admin, r);
    assert [first, second] == [first] + [second];
    ApplyFirst(db, first, [second]);
    NothingToReload(mid, [second]);
    ApplyFirst(mid, second, []);
  }

  // A new tenant: its root role, its only holder, and what that holder has and may grant.
  lemma NewTenantWorks(db: Db, t: TenantId, name: string, admin: UserId, username: string, email: string, ceiling: Mask)
    requires Wf(db) && Synced(db) && ceiling <= TenantRoleMask(db.cat)
    requires Accepts(db, InsertTenant(t, name, ceiling))
    requires Accepts(db, InsertUser(admin, username, email, None, false))
    ensures var (end, ok) := ApplyAll(db, BootstrapCommits(db.nextRole, t, name, admin, username, email, ceiling));
            && ok && RootMirrors(end, t, db.nextRole, ceiling)
            && end.tenants == db.tenants[t := Tenant(name, true, ceiling)]
            && admin in end.users && end.users[admin] == NewAdmin(t, username, email)
            && GrantableMask(end, admin) == ceiling && EffectiveMask(end, admin) == ceiling
  {
    var rest := [InsertUser(admin, username, email, Some(t), false), AssignRole(db.nextRole, admin)];
    var two := NewRootMirrors(db, t, name, ceiling, rest);
    AdminHoldsTheCeiling(two, t, db.nextRole, ceiling, admin, username, email);
    assert BootstrapCommits(db.nextRole, t, name, admin, username, email, ceiling)
           == [InsertTenant(t, name, ceiling), CreateRootRole(db.nextRole, t, ceiling)] + rest;
  }

  lemma NewTenantHasNoRole(db: Db, t: TenantId, name: string, ceiling: Mask)
    requires Wf(db) && Accepts(db, InsertTenant(t, name, ceiling))
    ensures Accepts(Apply(db, InsertTenant(t, name, ceiling)).value, CreateRootRole(db.nextRole, t, ceiling))
  {
  }

  lemma OnlyRole(db: Db, end: Db, u: UserId, r: RoleId)
    requires Wf(db) && u !in db.users && r in end.roles
    requires end.userRoles == db.userRoles + {(u, r)} && end.userPerms == db.userPerms
    ensures EffectiveMask(end, u) == end.roles[r].mask
  {
  }

  /**
   * A request to create a tenant that passes its guards, on new identifiers, commits whole,
   * and its admin then holds, and may grant, exactly the ceiling.
   */
  lemma TenantStartsUsable(db: Db, actor: UserId, t: TenantId, name: string, admin: UserId, username: string,
                           email: string, allowed: Option<seq<string>>)
    requires Wf(db) && Synced(db) && actor in db.users && t !in db.tenants && admin !in db.users
    requires Decide(db, CreateTenant(actor, t, name, admin, username, email, allowed), []).Success?
    ensures var ceiling := (if allowed.Some? then BitsOf(db.cat, Elements(allowed.value)) else TenantRoleMask(db.cat))
                           * TenantRoleMask(db.cat);
            var (end, ok) := ApplyAll(db, Decide(db, CreateTenant(actor, t, name, admin, username, email, allowed), []).value);
            && ok && RootMirrors(end, t, db.nextRole, ceiling)
            && end.tenants == db.tenants[t := Tenant(name, true, ceiling)]
            && admin in end.users && end.users[admin] == NewAdmin(t, username, email)
            && GrantableMask(end, admin) == ceiling && EffectiveMask(end, admin) == ceiling
  {
    var ceiling := CeilingOf(db.cat, allowed).value;
    assert TenantRoleMask(db.cat) * TenantRoleMask(db.cat) == TenantRoleMask(db.cat);
    assert ceiling <= TenantRoleMask(db.cat);
    NewTenantWorks(db, t, name, admin, username, email, ceiling);
    assert Decide(db, CreateTenant(actor, t, name, admin, username, email, allowed), []).value
           == BootstrapCommits(db.nextRole, t, name, admin, username, email, ceiling);
  }
}
