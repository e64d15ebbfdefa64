/**
 * The tables behind authorization (app/models) and the commits the repositories make on
 * them (app/repositories). A commit is one transaction: it either meets every constraint of
 * the schema and is applied whole, or leaves the tables alone.
 */
module Database {
  import opened Wrappers
  import opened Registry

  type UserId = nat
  type RoleId = nat
  type TenantId = nat
  type PermId = nat

  datatype User = User(username: string, email: string, tenant: Option<TenantId>,
                       superuser: bool, active: bool, version: nat)
  datatype Role = Role(name: string, tenant: Option<TenantId>, mask: Mask, perms: set<PermId>)
  datatype Permission = Permission(name: string, bit: Option<nat>)
  datatype Tenant = Tenant(name: string, active: bool, allowed: Mask)

  // `cat` is the catalog of the running release; `nextRole` the sequence behind `roles.id`,
  // which never hands out a number twice.
  datatype Db = Db(
    cat: Catalog,
    users: map<UserId, User>,
    roles: map<RoleId, Role>,
    perms: map<PermId, Permission>,
    tenants: map<TenantId, Tenant>,
    userRoles: set<(UserId, RoleId)>,
    userPerms: set<(UserId, PermId)>,
    grantRoles: set<(RoleId, RoleId)>,
    grantPerms: set<(RoleId, PermId)>,
    nextRole: RoleId)

  const FIRST_VERSION: nat := 1
  const ROOT_ROLE := "tenant-admin"

  // ------------------------------------------------------------------
  // Commits
  // ------------------------------------------------------------------

  // `read`, `wasActive` and `wasNamed` are what the object an assignment was made on said: the
  // column as it was when the object was loaded, or reloaded after the request's previous edit.
  datatype Commit =
    | InsertUser(user: UserId, username: string, email: string, home: Option<TenantId>, superuser: bool)
    | SetUserActive(user: UserId, active: bool, wasActive: bool)
    | InsertTenant(tenant: TenantId, name: string, allowed: Mask)
    | SetTenantActive(tenant: TenantId, active: bool, wasActive: bool)
    | SetCeiling(tenant: TenantId, allowed: Mask, read: Mask)
    | InsertPermission(perm: PermId, name: string, bit: nat)
    | InsertRole(role: RoleId, row: Role)
    | CreateRootRole(role: RoleId, tenant: TenantId, allowed: Mask)
    | SyncRootRole(tenant: TenantId, allowed: Mask)
    | RenameRole(role: RoleId, name: string, wasNamed: string)
    | DeleteRole(role: RoleId)
    | AssignRole(role: RoleId, user: UserId)
    | RemoveRole(role: RoleId, user: UserId)
    | AddPermission(role: RoleId, perm: PermId, read: Mask)
    | RemovePermission(role: RoleId, perm: PermId, read: Mask)
    | GrantPermission(user: UserId, perm: PermId)
    | RevokePermission(user: UserId, perm: PermId)
    | LinkRole(role: RoleId, grantable: RoleId)
    | UnlinkRole(role: RoleId, grantable: RoleId)
    | LinkPermission(role: RoleId, perm: PermId)
    | UnlinkPermission(role: RoleId, perm: PermId)

  // The ORM writes a column only when its new value differs from the one it had loaded.
  function Assigned<T(==)>(column: T, read: T, value: T): T {
    if value == read then column else value
  }

  predicate RoleNameTaken(db: Db, name: string, tenant: Option<TenantId>) {
    exists r :: r in db.roles && db.roles[r].name == name && db.roles[r].tenant == tenant
  }

  predicate TenantExists(db: Db, tenant: Option<TenantId>) {
    tenant.Some? ==> tenant.value in db.tenants
  }

  // The schema's keys, uniqueness constraints and foreign keys, and the list removals that
  // raise when there is nothing to remove.
  predicate Accepts(db: Db, c: Commit) {
    match c
    case InsertUser(u, username, email, home, _) =>
      u !in db.users && TenantExists(db, home)
      && (forall v | v in db.users :: db.users[v].username != username && db.users[v].email != email)
    case SetUserActive(u, _, _) => u in db.users
    case InsertTenant(t, name, _) => t !in db.tenants && forall s | s in db.tenants :: db.tenants[s].name != name
    case SetTenantActive(t, _, _) => t in db.tenants
    case SetCeiling(t, _, _) => t in db.tenants
    case InsertPermission(p, name, bit) =>
      p !in db.perms && forall q | q in db.perms :: db.perms[q].name != name && db.perms[q].bit != Some(bit)
    case InsertRole(r, row) =>
      r !in db.roles && TenantExists(db, row.tenant) && row.perms <= db.perms.Keys
      && !RoleNameTaken(db, row.name, row.tenant)
    case CreateRootRole(r, t, _) =>
      r !in db.roles && t in db.tenants && !RoleNameTaken(db, ROOT_ROLE, Some(t))
    case SyncRootRole(_, _) => true
    case RenameRole(r, name, was) =>
      r in db.roles
      && (Assigned(db.roles[r].name, was, name) == db.roles[r].name || !RoleNameTaken(db, name, db.roles[r].tenant))
    case DeleteRole(r) => r in db.roles
    case AssignRole(r, u) => r in db.roles && u in db.users && (u, r) !in db.userRoles
    case RemoveRole(_, _) => true
    case AddPermission(r, p, _) => r in db.roles && p in db.perms && p !in db.roles[r].perms
    case RemovePermission(r, p, _) => r in db.roles && p in db.perms && p in db.roles[r].perms
    case GrantPermission(u, p) => u in db.users && p in db.perms && (u, p) !in db.userPerms
    case RevokePermission(u, p) => u in db.users && p in db.perms && (u, p) in db.userPerms
    case LinkRole(r, g) => r in db.roles && g in db.roles && (r, g) !in db.grantRoles
    case UnlinkRole(_, _) => true
    case LinkPermission(r, p) => r in db.roles && p in db.perms && (r, p) !in db.grantPerms
    case UnlinkPermission(_, _) => true
  }

  function BitOf(p: Permission): Mask {
    if p.bit.Some? then {p.bit.value} else {}
  }

  // The permission rows a tenant's root role gets for a ceiling.
  function RootRows(db: Db, allowed: Mask): set<PermId> {
    set p | p in db.perms && db.perms[p].name !in db.cat.superuserOnly
            && db.perms[p].bit.Some? && db.perms[p].bit.value in RootMask(db, allowed)
  }

  function RootMask(db: Db, allowed: Mask): Mask {
    allowed * TenantRoleMask(db.cat)
  }

  function PermLinks(role: RoleId, perms: set<PermId>): set<(RoleId, PermId)> {
    set p | p in perms :: (role, p)
  }

  // The tenant's role named "tenant-admin"; the schema allows one.
  predicate IsRootRole(db: Db, tenant: TenantId, r: RoleId) {
    r in db.roles && db.roles[r].name == ROOT_ROLE && db.roles[r].tenant == Some(tenant)
  }

  ghost function RootRole(db: Db, tenant: TenantId): (r: Option<RoleId>)
    ensures r.Some? ==> IsRootRole(db, tenant, r.value)
    ensures r.None? ==> forall q :: !IsRootRole(db, tenant, q)
  {
    if r :| IsRootRole(db, tenant, r) then Some(r) else None
  }

  function Later(a: RoleId, b: RoleId): RoleId {
    if a <= b then b + 1 else a
  }

  // What the commit does to each table.

  ghost function NewUsers(db: Db, c: Commit): map<UserId, User>
    requires Accepts(db, c)
  {
    match c
    case InsertUser(u, username, email, home, superuser) =>
      db.users[u := User(username, email, home, superuser, true, FIRST_VERSION)]
    case SetUserActive(u, active, was) =>
      db.users[u := db.users[u].(active := Assigned(db.users[u].active, was, active))]
    case _ => Bump(db.users, Bumped(db, c))
  }

  function NewTenants(db: Db, c: Commit): map<TenantId, Tenant>
    requires Accepts(db, c)
  {
    match c
    case InsertTenant(t, name, allowed) => db.tenants[t := Tenant(name, true, allowed)]
    case SetTenantActive(t, active, was) =>
      db.tenants[t := db.tenants[t].(active := Assigned(db.tenants[t].active, was, active))]
    case SetCeiling(t, allowed, read) =>
      db.tenants[t := db.tenants[t].(allowed := Assigned(db.tenants[t].allowed, read, allowed))]
    case _ => db.tenants
  }

  function NewPerms(db: Db, c: Commit): map<PermId, Permission> {
    match c
    case InsertPermission(p, name, bit) => db.perms[p := Permission(name, Some(bit))]
    case _ => db.perms
  }

  ghost function NewRoles(db: Db, c: Commit): map<RoleId, Role>
    requires Accepts(db, c)
  {
    match c
    case InsertRole(r, row) => db.roles[r := row]
    case CreateRootRole(r, t, allowed) =>
      db.roles[r := Role(ROOT_ROLE, Some(t), RootMask(db, allowed), RootRows(db, allowed))]
    case SyncRootRole(t, allowed) =>
      (match RootRole(db, t)
       case None => db.roles
       case Some(r) => db.roles[r := db.roles[r].(mask := RootMask(db, allowed), perms := RootRows(db, allowed))])
    case RenameRole(r, name, was) => db.roles[r := db.roles[r].(name := Assigned(db.roles[r].name, was, name))]
    case DeleteRole(r) => db.roles - {r}
    case AddPermission(r, p, read) =>
      var row := db.roles[r];
      db.roles[r := row.(mask := Assigned(row.mask, read, read + BitOf(db.perms[p])), perms := row.perms + {p})]
    case RemovePermission(r, p, read) =>
      var row := db.roles[r];
      db.roles[r := row.(mask := Assigned(row.mask, read, read - BitOf(db.perms[p])), perms := row.perms - {p})]
    case _ => db.roles
  }

  function NewUserRoles(db: Db, c: Commit): set<(UserId, RoleId)> {
    match c
    case AssignRole(r, u) => db.userRoles + {(u, r)}
    case RemoveRole(r, u) => db.userRoles - {(u, r)}
    case DeleteRole(r) => set l | l in db.userRoles && l.1 != r
    case _ => db.userRoles
  }

  function NewUserPerms(db: Db, c: Commit): set<(UserId, PermId)> {
    match c
    case GrantPermission(u, p) => db.userPerms + {(u, p)}
    case RevokePermission(u, p) => db.userPerms - {(u, p)}
    case _ => db.userPerms
  }

  function NewGrantRoles(db: Db, c: Commit): set<(RoleId, RoleId)> {
    match c
    case LinkRole(r, g) => db.grantRoles + {(r, g)}
    case UnlinkRole(r, g) => db.grantRoles - {(r, g)}
    case DeleteRole(r) => set l | l in db.grantRoles && l.0 != r && l.1 != r
    case _ => db.grantRoles
  }

  ghost function NewGrantPerms(db: Db, c: Commit): set<(RoleId, PermId)> {
    match c
    case LinkPermission(r, p) => db.grantPerms + {(r, p)}
    case UnlinkPermission(r, p) => db.grantPerms - {(r, p)}
    case DeleteRole(r) => set l | l in db.grantPerms && l.0 != r
    case CreateRootRole(r, _, allowed) => db.grantPerms + PermLinks(r, RootRows(db, allowed))
    case SyncRootRole(t, allowed) =>
      (match RootRole(db, t)
       case None => db.grantPerms
       case Some(r) => (set l | l in db.grantPerms && l.0 != r) + PermLinks(r, RootRows(db, allowed)))
    case _ => db.grantPerms
  }

  function NewSequence(db: Db, c: Commit): RoleId {
    match c
    case InsertRole(r, _) => Later(db.nextRole, r)
    case CreateRootRole(r, _, _) => Later(db.nextRole, r)
    case _ => db.nextRole
  }

  function Holders(db: Db, r: RoleId): set<UserId> {
    set l | l in db.userRoles && l.1 == r :: l.0
  }

  // Whose version the transaction bumps. Deleting a role bumps nobody.
  ghost function Bumped(db: Db, c: Commit): set<UserId> {
    match c
    case AssignRole(_, u) => {u}
    case RemoveRole(_, u) => {u}
    case AddPermission(r, _, _) => Holders(db, r)
    case RemovePermission(r, _, _) => Holders(db, r)
    case SyncRootRole(t, _) => (match RootRole(db, t) case None => {} case Some(r) => Holders(db, r))
    case GrantPermission(u, _) => {u}
    case RevokePermission(u, _) => {u}
    case _ => {}
  }

  function Bump(users: map<UserId, User>, us: set<UserId>): map<UserId, User> {
    map u | u in users :: if u in us then users[u].(version := users[u].version + 1) else users[u]
  }

  // None when a constraint is violated and the transaction rolls back.
  ghost function Apply(db: Db, c: Commit): Option<Db> {
    if Accepts(db, c) then
      Some(Db(db.cat, NewUsers(db, c), NewRoles(db, c), NewPerms(db, c), NewTenants(db, c),
              NewUserRoles(db, c), NewUserPerms(db, c), NewGrantRoles(db, c), NewGrantPerms(db, c),
              NewSequence(db, c)))
    else None
  }

  // After each commit the repository reloads the role, so the next edit starts from there.
  function Reload(db: Db, c: Commit): Commit {
    match c
    case AddPermission(r, p, _) => if r in db.roles then AddPermission(r, p, db.roles[r].mask) else c
    case _ => c
  }

  function Reloaded(db: Db, cs: seq<Commit>): (r: seq<Commit>)
    ensures |r| == |cs| && forall i | 0 <= i < |cs| :: r[i] == Reload(db, cs[i])
  {
    seq(|cs|, i requires 0 <= i < |cs| => Reload(db, cs[i]))
  }

  lemma NothingToReload(db: Db, cs: seq<Commit>)
    requires forall c | c in cs :: !c.AddPermission?
    ensures Reloaded(db, cs) == cs
  {
  }

  // Stops at the first commit that fails, as the exception does.
  ghost function ApplyAll(db: Db, cs: seq<Commit>): (Db, bool)
    decreases |cs|
  {
    if cs == [] then (db, true)
    else match Apply(db, cs[0])
      case None => (db, false)
      case Some(next) => ApplyAll(next, Reloaded(next, cs[1..]))
  }

  // ------------------------------------------------------------------
  // What the schema guarantees in every state
  // ------------------------------------------------------------------

  ghost predicate LinksResolve(db: Db) {
    && (forall l | l in db.userRoles :: l.0 in db.users && l.1 in db.roles)
    && (forall l | l in db.userPerms :: l.0 in db.users && l.1 in db.perms)
    && (forall l | l in db.grantRoles :: l.0 in db.roles && l.1 in db.roles)
    && (forall l | l in db.grantPerms :: l.0 in db.roles && l.1 in db.perms)
  }

  ghost predicate RowsResolve(db: Db) {
    && (forall r | r in db.roles :: r < db.nextRole && TenantExists(db, db.roles[r].tenant)
                                    && db.roles[r].perms <= db.perms.Keys)
    && (forall u | u in db.users :: TenantExists(db, db.users[u].tenant) && FIRST_VERSION <= db.users[u].version)
  }

  ghost predicate KeysUnique(db: Db) {
    && (forall p, q | p in db.perms && q in db.perms && p != q ::
          db.perms[p].name != db.perms[q].name && (db.perms[p].bit.Some? ==> db.perms[p].bit != db.perms[q].bit))
    && (forall r, s | r in db.roles && s in db.roles && r != s ::
          db.roles[r].name != db.roles[s].name || db.roles[r].tenant != db.roles[s].tenant)
  }

  ghost predicate Wf(db: Db) {
    LinksResolve(db) && RowsResolve(db) && KeysUnique(db)
  }

  lemma ApplyKeepsLinks(db: Db, c: Commit)
    requires Wf(db) && Accepts(db, c)
    ensures LinksResolve(Apply(db, c).value)
  {
    ApplyKeepsUserLinks(db, c);
    var next := Apply(db, c).value;
    forall l | l in next.grantRoles ensures l.0 in next.roles && l.1 in next.roles {
    }
    forall l | l in next.grantPerms ensures l.0 in next.roles && l.1 in next.perms {
    }
  }

  lemma ApplyKeepsUserLinks(db: Db, c: Commit)
    requires Wf(db) && Accepts(db, c)
    ensures var next := Apply(db, c).value;
            && (forall l | l in next.userRoles :: l.0 in next.users && l.1 in next.roles)
            && (forall l | l in next.userPerms :: l.0 in next.users && l.1 in next.perms)
  {
    RowsStay(db, c);
    var next := Apply(db, c).value;
    forall l | l in next.userRoles ensures l.0 in next.users && l.1 in next.roles {
      assert l in db.userRoles || c == AssignRole(l.1, l.0);
    }
    forall l | l in next.userPerms ensures l.0 in next.users && l.1 in next.perms {
      assert l in db.userPerms || c == GrantPermission(l.0, l.1);
    }
  }

  // Only a role can go, and only when it is deleted.
  lemma RowsStay(db: Db, c: Commit)
    requires Accepts(db, c)
    ensures var next := Apply(db, c).value;
            && db.users.Keys <= next.users.Keys && db.perms.Keys <= next.perms.Keys
            && forall r | r in db.roles && c != DeleteRole(r) :: r in next.roles
  {
  }

  lemma ApplyKeepsRows(db: Db, c: Commit)
    requires Wf(db) && Accepts(db, c)
    ensures RowsResolve(Apply(db, c).value)
  {
    ApplyKeepsUserRows(db, c);
    ApplyKeepsRoleRows(db, c);
  }

  lemma ApplyKeepsRoleRows(db: Db, c: Commit)
    requires RowsResolve(db) && Accepts(db, c)
    ensures var next := Apply(db, c).value;
            forall r | r in next.roles :: r < next.nextRole && TenantExists(next, next.roles[r].tenant)
                                          && next.roles[r].perms <= next.perms.Keys
  {
    var next := Apply(db, c).value;
    forall r | r in next.roles
      ensures r < next.nextRole && TenantExists(next, next.roles[r].tenant) && next.roles[r].perms <= next.perms.Keys
    {
      ApplyKeepsRoleRow(db, c, r);
    }
  }

  lemma ApplyKeepsRoleRow(db: Db, c: Commit, r: RoleId)
    requires RowsResolve(db) && Accepts(db, c) && r in Apply(db, c).value.roles
    ensures var next := Apply(db, c).value;
            r < next.nextRole && TenantExists(next, next.roles[r].tenant) && next.roles[r].perms <= next.perms.Keys
  {
  }

  lemma ApplyKeepsUserRows(db: Db, c: Commit)
    requires RowsResolve(db) && Accepts(db, c)
    ensures var next := Apply(db, c).value;
            forall u | u in next.users :: TenantExists(next, next.users[u].tenant) && FIRST_VERSION <= next.users[u].version
  {
  }

  lemma ApplyKeepsKeys(db: Db, c: Commit)
    requires Wf(db) && Accepts(db, c)
    ensures KeysUnique(Apply(db, c).value)
  {
    var next := Apply(db, c).value;
    forall r, s | r in next.roles && s in next.roles && r != s
      ensures next.roles[r].name != next.roles[s].name || next.roles[r].tenant != next.roles[s].tenant
    {
      RoleNamesStayUnique(db, c, r, s);
    }
  }

  lemma RoleNamesStayUnique(db: Db, c: Commit, r: RoleId, s: RoleId)
    requires KeysUnique(db) && Accepts(db, c) && r != s
    requires r in Apply(db, c).value.roles && s in Apply(db, c).value.roles
    ensures var next := Apply(db, c).value;
            next.roles[r].name != next.roles[s].name || next.roles[r].tenant != next.roles[s].tenant
  {
  }

  lemma ApplyKeepsWf(db: Db, c: Commit)
    requires Wf(db) && Accepts(db, c)
    ensures Wf(Apply(db, c).value)
  {
    ApplyKeepsLinks(db, c);
    ApplyKeepsRows(db, c);
    ApplyKeepsKeys(db, c);
  }

  // What no commit changes or undoes.
  lemma UsersAreMonotone(db: Db, c: Commit)
    requires Accepts(db, c)
    ensures var next := Apply(db, c).value;
            forall u | u in db.users ::
              && u in next.users
              && db.users[u].version <= next.users[u].version
              && next.users[u].tenant == db.users[u].tenant
              && next.users[u].superuser == db.users[u].superuser
  {
  }

  lemma RowsAreMonotone(db: Db, c: Commit)
    requires Accepts(db, c)
    ensures var next := Apply(db, c).value;
            && next.cat == db.cat && db.nextRole <= next.nextRole
            && (forall t | t in db.tenants :: t in next.tenants)
            && (forall p | p in db.perms :: p in next.perms && next.perms[p] == db.perms[p])
            && (forall r | r in db.roles && r in next.roles :: next.roles[r].tenant == db.roles[r].tenant)
  {
  }

  // ------------------------------------------------------------------
  // Histories
  // ------------------------------------------------------------------

  // Every state of the tables so far, and the commits that led from each to the next.
  ghost predicate Linked(hist: seq<Db>, log: seq<Commit>, i: nat)
    requires |hist| == |log| + 1 && i < |log|
  {
    Accepts(hist[i], log[i]) && hist[i + 1] == Apply(hist[i], log[i]).value
  }

  ghost predicate HistoryOk(hist: seq<Db>, log: seq<Commit>) {
    && |hist| == |log| + 1
    && (forall i | 0 <= i < |log| :: Linked(hist, log, i))
  }
}
