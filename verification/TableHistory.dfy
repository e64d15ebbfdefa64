/**
 * The tables as their history: each link, row and column is what the last commit about it
 * made it, and each version counts the commits that were about its user's permissions.
 */
module TableHistory {
  import opened Wrappers
  import opened Registry
  import opened Database
  import opened Delegation

  // ------------------------------------------------------------------
  // Links and rows that come and go
  // ------------------------------------------------------------------

  datatype Fact =
    | HoldsRole(user: UserId, role: RoleId)
    | HoldsPermission(user: UserId, perm: PermId)
    | MayGrantRole(role: RoleId, grantable: RoleId)
    | MayGrantPermission(role: RoleId, perm: PermId)
    | CarriesPermission(role: RoleId, perm: PermId)
    | IsRole(role: RoleId)

  predicate True(db: Db, f: Fact) {
    match f
    case HoldsRole(u, r) => (u, r) in db.userRoles
    case HoldsPermission(u, p) => (u, p) in db.userPerms
    case MayGrantRole(r, g) => (r, g) in db.grantRoles
    case MayGrantPermission(r, p) => (r, p) in db.grantPerms
    case CarriesPermission(r, p) => r in db.roles && p in db.roles[r].perms
    case IsRole(r) => r in db.roles
  }

  // The root role created for a ceiling gets the rows within it.
  predicate WithinCeiling(db: Db, allowed: Mask, p: PermId) {
    && p in db.perms && db.perms[p].name !in db.cat.superuserOnly
    && db.perms[p].bit.Some? && db.perms[p].bit.value in allowed && db.perms[p].bit.value in TenantRoleMask(db.cat)
  }

  // What a commit says about a fact, if it is about it at all.
  ghost function Says(db: Db, c: Commit, f: Fact): Option<bool> {
    match f
    case HoldsRole(u, r) =>
      if c == AssignRole(r, u) then Some(true)
      else if c == RemoveRole(r, u) || c == DeleteRole(r) then Some(false)
      else None
    case HoldsPermission(u, p) =>
      if c == GrantPermission(u, p) then Some(true) else if c == RevokePermission(u, p) then Some(false) else None
    case MayGrantRole(r, g) =>
      if c == LinkRole(r, g) then Some(true)
      else if c == UnlinkRole(r, g) || c == DeleteRole(r) || c == DeleteRole(g) then Some(false)
      else None
    case MayGrantPermission(r, p) =>
      if c == LinkPermission(r, p) then Some(true)
      else if c == UnlinkPermission(r, p) || c == DeleteRole(r) then Some(false)
      else if c.CreateRootRole? && c.role == r && WithinCeiling(db, c.allowed, p) then Some(true)
      else if c.SyncRootRole? && IsRootRole(db, c.tenant, r) then Some(WithinCeiling(db, c.allowed, p))
      else None
    case CarriesPermission(r, p) =>
      if c.AddPermission? && c.role == r && c.perm == p then Some(true)
      else if c.RemovePermission? && c.role == r && c.perm == p then Some(false)
      else if c == DeleteRole(r) then Some(false)
      else if c.InsertRole? && c.role == r then Some(p in c.row.perms)
      else if c.CreateRootRole? && c.role == r then Some(WithinCeiling(db, c.allowed, p))
      else if c.SyncRootRole? && IsRootRole(db, c.tenant, r) then Some(WithinCeiling(db, c.allowed, p))
      else None
    case IsRole(r) =>
      if (c.InsertRole? || c.CreateRootRole?) && c.role == r then Some(true)
      else if c == DeleteRole(r) then Some(false)
      else None
  }

  function Else<T>(said: Option<T>, before: T): T {
    if said.Some? then said.value else before
  }

  lemma CommitSays(db: Db, c: Commit, f: Fact)
    requires Wf(db) && Accepts(db, c)
    ensures True(Apply(db, c).value, f) == Else(Says(db, c, f), True(db, f))
  {
    match f
    case HoldsRole(u, r) => HoldsRoleSays(db, c, u, r);
    case HoldsPermission(u, p) => HoldsPermissionSays(db, c, u, p);
    case MayGrantRole(r, g) => MayGrantRoleSays(db, c, r, g);
    case MayGrantPermission(r, p) => MayGrantPermissionSays(db, c, r, p);
    case CarriesPermission(r, p) => CarriesPermissionSays(db, c, r, p);
    case IsRole(r) =>
  }

  lemma HoldsRoleSays(db: Db, c: Commit, u: UserId, r: RoleId)
    requires Accepts(db, c)
    ensures var f := HoldsRole(u, r);
            True(Apply(db, c).value, f) == Else(Says(db, c, f), True(db, f))
  {
    assert (u, r).0 == u && (u, r).1 == r;
  }

  lemma HoldsPermissionSays(db: Db, c: Commit, u: UserId, p: PermId)
    requires Accepts(db, c)
    ensures var f := HoldsPermission(u, p);
            True(Apply(db, c).value, f) == Else(Says(db, c, f), True(db, f))
  {
  }

  lemma MayGrantRoleSays(db: Db, c: Commit, r: RoleId, g: RoleId)
    requires Accepts(db, c)
    ensures var f := MayGrantRole(r, g);
            True(Apply(db, c).value, f) == Else(Says(db, c, f), True(db, f))
  {
    assert (r, g).0 == r && (r, g).1 == g;
  }

  lemma RootRowsWithin(db: Db, allowed: Mask, p: PermId)
    ensures p in RootRows(db, allowed) <==> WithinCeiling(db, allowed, p)
  {
  }

  lemma PermLinksOf(role: RoleId, perms: set<PermId>, r: RoleId, p: PermId)
    ensures (r, p) in PermLinks(role, perms) <==> r == role && p in perms
  {
  }

  lemma RootIsUnique(db: Db, t: TenantId, r: RoleId)
    requires KeysUnique(db)
    ensures IsRootRole(db, t, r) <==> RootRole(db, t) == Some(r)
  {
  }

  lemma MayGrantPermissionSays(db: Db, c: Commit, r: RoleId, p: PermId)
    requires Wf(db) && Accepts(db, c)
    ensures var f := MayGrantPermission(r, p);
            True(Apply(db, c).value, f) == Else(Says(db, c, f), True(db, f))
  {
    match c
    case CreateRootRole(role, t, allowed) => RootLinksSay(db, role, t, allowed, r, p);
    case SyncRootRole(t, allowed) => SyncedLinksSay(db, t, allowed, r, p);
    case _ => LinkedPermissionSays(db, c, r, p);
  }

  lemma RootLinksSay(db: Db, role: RoleId, t: TenantId, allowed: Mask, r: RoleId, p: PermId)
    ensures (r, p) in NewGrantPerms(db, CreateRootRole(role, t, allowed))
            <==> (r == role && WithinCeiling(db, allowed, p)) || (r, p) in db.grantPerms
  {
    RootRowsWithin(db, allowed, p);
    PermLinksOf(role, RootRows(db, allowed), r, p);
  }

  lemma LinkedPermissionSays(db: Db, c: Commit, r: RoleId, p: PermId)
    requires Accepts(db, c) && !c.CreateRootRole? && !c.SyncRootRole?
    ensures (r, p) in NewGrantPerms(db, c)
            <==> Else(Says(db, c, MayGrantPermission(r, p)), (r, p) in db.grantPerms)
  {
    assert (r, p).0 == r && (r, p).1 == p;
  }

  lemma SyncedLinksSay(db: Db, t: TenantId, allowed: Mask, r: RoleId, p: PermId)
    requires Wf(db)
    ensures (r, p) in NewGrantPerms(db, SyncRootRole(t, allowed))
            <==> (if IsRootRole(db, t, r) then WithinCeiling(db, allowed, p) else (r, p) in db.grantPerms)
  {
    assert (r, p).0 == r && (r, p).1 == p;
    RootIsUnique(db, t, r);
    RootRowsWithin(db, allowed, p);
    if RootRole(db, t).Some? {
      PermLinksOf(RootRole(db, t).value, RootRows(db, allowed), r, p);
    }
  }

  lemma CarriesPermissionSays(db: Db, c: Commit, r: RoleId, p: PermId)
    requires Wf(db) && Accepts(db, c)
    ensures var f := CarriesPermission(r, p);
            True(Apply(db, c).value, f) == Else(Says(db, c, f), True(db, f))
  {
    match c
    case CreateRootRole(role, t, allowed) => RootRowsSay(db, role, t, allowed, r, p);
    case SyncRootRole(t, allowed) => SyncedRowsSay(db, t, allowed, r, p);
    case _ => EditedRowsSay(db, c, r, p);
  }

  lemma RootRowsSay(db: Db, role: RoleId, t: TenantId, allowed: Mask, r: RoleId, p: PermId)
    requires Accepts(db, CreateRootRole(role, t, allowed))
    ensures (r in NewRoles(db, CreateRootRole(role, t, allowed)) && p in NewRoles(db, CreateRootRole(role, t, allowed))[r].perms)
            <==> (if r == role then WithinCeiling(db, allowed, p) else r in db.roles && p in db.roles[r].perms)
  {
    RootRowsWithin(db, allowed, p);
  }

  lemma EditedRowsSay(db: Db, c: Commit, r: RoleId, p: PermId)
    requires Accepts(db, c) && !c.CreateRootRole? && !c.SyncRootRole?
    ensures (r in NewRoles(db, c) && p in NewRoles(db, c)[r].perms)
            <==> Else(Says(db, c, CarriesPermission(r, p)), r in db.roles && p in db.roles[r].perms)
  {
  }

  lemma SyncedRowsSay(db: Db, t: TenantId, allowed: Mask, r: RoleId, p: PermId)
    requires Wf(db)
    ensures (r in NewRoles(db, SyncRootRole(t, allowed)) && p in NewRoles(db, SyncRootRole(t, allowed))[r].perms)
            <==> (if IsRootRole(db, t, r) then WithinCeiling(db, allowed, p) else r in db.roles && p in db.roles[r].perms)
  {
    RootIsUnique(db, t, r);
    RootRowsWithin(db, allowed, p);
  }

  // What the last commit about it said, or how it was at first.
  ghost function ByHistory(hist: seq<Db>, log: seq<Commit>, n: nat, f: Fact): bool
    requires |hist| == |log| + 1 && n < |hist|
  {
    if n == 0 then True(hist[0], f)
    else Else(Says(hist[n - 1], log[n - 1], f), ByHistory(hist, log, n - 1, f))
  }

  /** Every link and row is there exactly when the last commit about it put it there. */
  lemma {:induction false} FactsFollowHistory(hist: seq<Db>, log: seq<Commit>, n: nat, f: Fact)
    requires HistoryOk(hist, log) && Wf(hist[0]) && n < |hist|
    ensures Wf(hist[n]) && (True(hist[n], f) <==> ByHistory(hist, log, n, f))
  {
    if n != 0 {
      FactsFollowHistory(hist, log, n - 1, f);
      assert Linked(hist, log, n - 1);
      ApplyKeepsWf(hist[n - 1], log[n - 1]);
      CommitSays(hist[n - 1], log[n - 1], f);
    }
  }

  // ------------------------------------------------------------------
  // Versions
  // ------------------------------------------------------------------

  // The commit is about the permissions of this user.
  ghost predicate Concerns(db: Db, c: Commit, u: UserId) {
    u in db.users &&
    match c
    case AssignRole(_, v) => v == u
    case RemoveRole(_, v) => v == u
    case GrantPermission(v, _) => v == u
    case RevokePermission(v, _) => v == u
    case AddPermission(r, _, _) => (u, r) in db.userRoles
    case RemovePermission(r, _, _) => (u, r) in db.userRoles
    case SyncRootRole(t, _) => exists r: RoleId :: IsRootRole(db, t, r) && (u, r) in db.userRoles
    case _ => false
  }

  lemma ConcernsBumps(db: Db, c: Commit, u: UserId)
    requires Wf(db) && Accepts(db, c) && u in db.users
    ensures u in Apply(db, c).value.users
    ensures Apply(db, c).value.users[u].version == db.users[u].version + Moves(db, c, u)
  {
    BumpedIsConcerned(db, c, u);
    BumpMoves(db.users, Bumped(db, c), u);
    if !c.InsertUser? && !c.SetUserActive? {
      assert NewUsers(db, c) == Bump(db.users, Bumped(db, c));
    }
  }

  ghost function Moves(db: Db, c: Commit, u: UserId): nat {
    if Concerns(db, c, u) then 1 else 0
  }

  lemma BumpMoves(users: map<UserId, User>, us: set<UserId>, u: UserId)
    requires u in users
    ensures u in Bump(users, us) && Bump(users, us)[u].version == users[u].version + (if u in us then 1 else 0)
  {
  }

  lemma HoldersHold(db: Db, r: RoleId, u: UserId)
    ensures u in Holders(db, r) <==> (u, r) in db.userRoles
  {
    assert (u, r).0 == u && (u, r).1 == r;
  }

  lemma BumpedIsConcerned(db: Db, c: Commit, u: UserId)
    requires Wf(db) && u in db.users
    ensures u in Bumped(db, c) <==> Concerns(db, c, u)
  {
    match c
    case AddPermission(r, _, _) => HoldersHold(db, r, u);
    case RemovePermission(r, _, _) => HoldersHold(db, r, u);
    case SyncRootRole(t, _) =>
      if RootRole(db, t).Some? {
        HoldersHold(db, RootRole(db, t).value, u);
      }
    case _ =>
  }

  lemma NewcomersStartFirst(db: Db, c: Commit, u: UserId)
    requires Accepts(db, c) && u !in db.users
    ensures u in Apply(db, c).value.users ==> Apply(db, c).value.users[u].version == FIRST_VERSION
  {
  }

  ghost function VersionByHistory(hist: seq<Db>, log: seq<Commit>, n: nat, u: UserId): nat
    requires |hist| == |log| + 1 && n < |hist|
  {
    if n == 0 then (if u in hist[0].users then hist[0].users[u].version else FIRST_VERSION)
    else VersionByHistory(hist, log, n - 1, u) + Moves(hist[n - 1], log[n - 1], u)
  }

  /** A version moves by one for each commit about its user, and for no other. */
  lemma {:induction false} VersionsCount(hist: seq<Db>, log: seq<Commit>, n: nat, u: UserId)
    requires HistoryOk(hist, log) && Wf(hist[0]) && n < |hist|
    ensures Wf(hist[n])
    ensures VersionByHistory(hist, log, n, u) == if u in hist[n].users then hist[n].users[u].version else FIRST_VERSION
  {
    if n != 0 {
      VersionsCount(hist, log, n - 1, u);
      assert Linked(hist, log, n - 1);
      ApplyKeepsWf(hist[n - 1], log[n - 1]);
      if u in hist[n - 1].users {
        ConcernsBumps(hist[n - 1], log[n - 1], u);
      } else {
        NewcomersStartFirst(hist[n - 1], log[n - 1], u);
      }
    }
  }

  // ------------------------------------------------------------------
  // Columns
  // ------------------------------------------------------------------

  datatype Column =
    | Account(user: UserId)
    | RoleName(role: RoleId)
    | RoleTenant(role: RoleId)
    | Ceiling(tenant: TenantId)
    | UserActive(user: UserId)
    | TenantActive(tenant: TenantId)
    | CachedMask(role: RoleId)
    | TenantName(tenant: TenantId)
    | PermissionRow(perm: PermId)

  datatype Cell =
    | Nothing
    | Identity(username: string, email: string, home: Option<TenantId>, superuser: bool)
    | Name(name: string)
    | Owner(tenant: Option<TenantId>)
    | Bits(mask: Mask)
    | Flag(on: bool)
    | Named(name: string, bit: Option<nat>)

  function CellOf(db: Db, c: Column): Cell {
    match c
    case Account(u) =>
      if u in db.users
      then Identity(db.users[u].username, db.users[u].email, db.users[u].tenant, db.users[u].superuser)
      else Nothing
    case RoleName(r) => if r in db.roles then Name(db.roles[r].name) else Nothing
    case RoleTenant(r) => if r in db.roles then Owner(db.roles[r].tenant) else Nothing
    case Ceiling(t) => if t in db.tenants then Bits(db.tenants[t].allowed) else Nothing
    case UserActive(u) => if u in db.users then Flag(db.users[u].active) else Nothing
    case TenantActive(t) => if t in db.tenants then Flag(db.tenants[t].active) else Nothing
    case CachedMask(r) => MaskCell(db.roles, r)
    case TenantName(t) => if t in db.tenants then Name(db.tenants[t].name) else Nothing
    case PermissionRow(p) => if p in db.perms then Named(db.perms[p].name, db.perms[p].bit) else Nothing
  }

  function MaskCell(roles: map<RoleId, Role>, r: RoleId): Cell {
    if r in roles then Bits(roles[r].mask) else Nothing
  }

  // What a commit writes to the cell, if anything. An assignment that changes nothing about
  // the copy it was made on writes nothing.
  ghost function Writes(db: Db, c: Commit, column: Column): Option<Cell> {
    match column
    case Account(u) =>
      if c.InsertUser? && c.user == u then Some(Identity(c.username, c.email, c.home, c.superuser)) else None
    case RoleName(r) =>
      if c.InsertRole? && c.role == r then Some(Name(c.row.name))
      else if c.CreateRootRole? && c.role == r then Some(Name(ROOT_ROLE))
      else if c.RenameRole? && c.role == r && c.name != c.wasNamed then Some(Name(c.name))
      else if c == DeleteRole(r) then Some(Nothing)
      else None
    case RoleTenant(r) =>
      if c.InsertRole? && c.role == r then Some(Owner(c.row.tenant))
      else if c.CreateRootRole? && c.role == r then Some(Owner(Some(c.tenant)))
      else if c == DeleteRole(r) then Some(Nothing)
      else None
    case Ceiling(t) =>
      if c.InsertTenant? && c.tenant == t then Some(Bits(c.allowed))
      else if c.SetCeiling? && c.tenant == t && c.allowed != c.read then Some(Bits(c.allowed))
      else None
    case UserActive(u) =>
      if c.InsertUser? && c.user == u then Some(Flag(true))
      else if c.SetUserActive? && c.user == u && c.active != c.wasActive then Some(Flag(c.active))
      else None
    case TenantActive(t) =>
      if c.InsertTenant? && c.tenant == t then Some(Flag(true))
      else if c.SetTenantActive? && c.tenant == t && c.active != c.wasActive then Some(Flag(c.active))
      else None
    case CachedMask(r) => WritesMask(db, c, r)
    case TenantName(t) => if c.InsertTenant? && c.tenant == t then Some(Name(c.name)) else None
    case PermissionRow(p) => if c.InsertPermission? && c.perm == p then Some(Named(c.name, Some(c.bit))) else None
  }

  // Adding a bit that the loaded mask has, or removing one it lacks, writes nothing.
  ghost function WritesMask(db: Db, c: Commit, r: RoleId): Option<Cell> {
    match c
    case InsertRole(q, row) => if q == r then Some(Bits(row.mask)) else None
    case CreateRootRole(q, _, allowed) => if q == r then Some(Bits(allowed * TenantRoleMask(db.cat))) else None
    case SyncRootRole(t, allowed) =>
      if IsRootRole(db, t, r) then Some(Bits(allowed * TenantRoleMask(db.cat))) else None
    case AddPermission(q, p, read) =>
      if q == r && p in db.perms && db.perms[p].bit.Some? && db.perms[p].bit.value !in read
      then Some(Bits(read + {db.perms[p].bit.value})) else None
    case RemovePermission(q, p, read) =>
      if q == r && p in db.perms && db.perms[p].bit.Some? && db.perms[p].bit.value in read
      then Some(Bits(read - {db.perms[p].bit.value})) else None
    case DeleteRole(q) => if q == r then Some(Nothing) else None
    case _ => None
  }

  lemma CommitWrites(db: Db, c: Commit, column: Column)
    requires Wf(db) && Accepts(db, c)
    ensures CellOf(Apply(db, c).value, column)
            == Else(Writes(db, c, column), CellOf(db, column))
  {
    match column
    case Account(u) => AccountWritten(db, c, u);
    case RoleName(r) => NameWritten(db, c, r);
    case RoleTenant(r) => OwnerWritten(db, c, r);
    case Ceiling(t) => CeilingWritten(db, c, t);
    case UserActive(u) => UserFlagWritten(db, c, u);
    case TenantActive(t) => TenantFlagWritten(db, c, t);
    case CachedMask(r) => MaskWritten(db, c, r);
    case TenantName(t) => NamesWritten(db, c, t);
    case PermissionRow(p) => PermissionWritten(db, c, p);
  }

  lemma AccountWritten(db: Db, c: Commit, u: UserId)
    requires Accepts(db, c)
    ensures CellOf(Apply(db, c).value, Account(u)) == Else(Writes(db, c, Account(u)), CellOf(db, Account(u)))
  {
  }

  lemma NameWritten(db: Db, c: Commit, r: RoleId)
    requires Accepts(db, c)
    ensures CellOf(Apply(db, c).value, RoleName(r)) == Else(Writes(db, c, RoleName(r)), CellOf(db, RoleName(r)))
  {
  }

  lemma OwnerWritten(db: Db, c: Commit, r: RoleId)
    requires Accepts(db, c)
    ensures CellOf(Apply(db, c).value, RoleTenant(r)) == Else(Writes(db, c, RoleTenant(r)), CellOf(db, RoleTenant(r)))
  {
  }

  lemma NamesWritten(db: Db, c: Commit, t: TenantId)
    requires Accepts(db, c)
    ensures CellOf(Apply(db, c).value, TenantName(t)) == Else(Writes(db, c, TenantName(t)), CellOf(db, TenantName(t)))
  {
  }

  lemma PermissionWritten(db: Db, c: Commit, p: PermId)
    requires Accepts(db, c)
    ensures CellOf(Apply(db, c).value, PermissionRow(p)) == Else(Writes(db, c, PermissionRow(p)), CellOf(db, PermissionRow(p)))
  {
  }

  lemma CeilingWritten(db: Db, c: Commit, t: TenantId)
    requires Accepts(db, c)
    ensures CellOf(Apply(db, c).value, Ceiling(t)) == Else(Writes(db, c, Ceiling(t)), CellOf(db, Ceiling(t)))
  {
  }

  lemma UserFlagWritten(db: Db, c: Commit, u: UserId)
    requires Accepts(db, c)
    ensures CellOf(Apply(db, c).value, UserActive(u)) == Else(Writes(db, c, UserActive(u)), CellOf(db, UserActive(u)))
  {
  }

  lemma TenantFlagWritten(db: Db, c: Commit, t: TenantId)
    requires Accepts(db, c)
    ensures CellOf(Apply(db, c).value, TenantActive(t)) == Else(Writes(db, c, TenantActive(t)), CellOf(db, TenantActive(t)))
  {
  }

  lemma MaskWritten(db: Db, c: Commit, r: RoleId)
    requires Wf(db) && Accepts(db, c)
    ensures CellOf(Apply(db, c).value, CachedMask(r)) == Else(Writes(db, c, CachedMask(r)), CellOf(db, CachedMask(r)))
  {
    if c.AddPermission? || c.RemovePermission? {
      EditWritten(db, c, r);
    } else if c.SyncRootRole? {
      SyncWritten(db, c, r);
    } else {
      UneditedMaskWritten(db, c, r);
    }
  }

  lemma UneditedMaskWritten(db: Db, c: Commit, r: RoleId)
    requires Accepts(db, c) && !c.AddPermission? && !c.RemovePermission? && !c.SyncRootRole?
    ensures MaskCell(NewRoles(db, c), r) == Else(WritesMask(db, c, r), MaskCell(db.roles, r))
  {
  }

  lemma SyncWritten(db: Db, c: Commit, r: RoleId)
    requires Wf(db) && c.SyncRootRole?
    ensures MaskCell(NewRoles(db, c), r) == Else(WritesMask(db, c, r), MaskCell(db.roles, r))
  {
    RootIsUnique(db, c.tenant, r);
  }

  lemma EditWritten(db: Db, c: Commit, r: RoleId)
    requires Accepts(db, c) && (c.AddPermission? || c.RemovePermission?)
    ensures MaskCell(NewRoles(db, c), r) == Else(WritesMask(db, c, r), MaskCell(db.roles, r))
  {
    AddedMask(db.roles[c.role].mask, c.read, db.perms[c.perm]);
    RemovedMask(db.roles[c.role].mask, c.read, db.perms[c.perm]);
  }

  lemma AddedMask(column: Mask, read: Mask, p: Permission)
    ensures Assigned(column, read, read + BitOf(p))
            == if p.bit.Some? && p.bit.value !in read then read + {p.bit.value} else column
  {
    if p.bit.Some? && p.bit.value !in read {
      assert p.bit.value in read + BitOf(p);
    } else {
      assert read + BitOf(p) == read;
    }
  }

  lemma RemovedMask(column: Mask, read: Mask, p: Permission)
    ensures Assigned(column, read, read - BitOf(p))
            == if p.bit.Some? && p.bit.value in read then read - {p.bit.value} else column
  {
    if p.bit.Some? && p.bit.value in read {
      assert p.bit.value !in read - BitOf(p);
    } else {
      assert read - BitOf(p) == read;
    }
  }

  ghost function CellByHistory(hist: seq<Db>, log: seq<Commit>, n: nat, column: Column): Cell
    requires |hist| == |log| + 1 && n < |hist|
  {
    if n == 0 then CellOf(hist[0], column)
    else Else(Writes(hist[n - 1], log[n - 1], column), CellByHistory(hist, log, n - 1, column))
  }

  /** Names, tenants, account data and ceilings are what was written last. */
  lemma {:induction false} CellsFollowHistory(hist: seq<Db>, log: seq<Commit>, n: nat, column: Column)
    requires HistoryOk(hist, log) && Wf(hist[0]) && n < |hist|
    ensures Wf(hist[n]) && CellOf(hist[n], column) == CellByHistory(hist, log, n, column)
  {
    if n != 0 {
      CellsFollowHistory(hist, log, n - 1, column);
      assert Linked(hist, log, n - 1);
      ApplyKeepsWf(hist[n - 1], log[n - 1]);
      CommitWrites(hist[n - 1], log[n - 1], column);
    }
  }

  // ------------------------------------------------------------------
  // What a change of links does to masks
  // ------------------------------------------------------------------

  // The bits of the direct grants other than `p`.
  function OtherGrantsMask(db: Db, u: UserId, p: PermId): Mask {
    set q | q in db.perms && q != p && (u, q) in db.userPerms && db.perms[q].name in db.cat.bits ::
      db.cat.bits[db.perms[q].name]
  }

  function GrantMask(db: Db, p: PermId): Mask {
    if p in db.perms && db.perms[p].name in db.cat.bits then {db.cat.bits[db.perms[p].name]} else {}
  }

  /**
   * Giving or taking a role or a permission changes one user's mask by exactly what it
   * carries, less what the user has from elsewhere.
   */
  lemma LinksMoveMasks(db: Db, c: Commit, u: UserId)
    requires Wf(db) && Accepts(db, c)
    ensures var mask := EffectiveMask(Apply(db, c).value, u);
            && (forall r | c == AssignRole(r, u) :: r in db.roles && mask == EffectiveMask(db, u) + db.roles[r].mask)
            && (forall r | c == RemoveRole(r, u) :: mask == DirectMask(db, u) + OtherRolesMask(db, u, r))
            && (forall p | c == GrantPermission(u, p) :: mask == EffectiveMask(db, u) + GrantMask(db, p))
            && (forall p | c == RevokePermission(u, p) :: mask == RoleMask(db, u) + OtherGrantsMask(db, u, p))
  {
    match c
    case AssignRole(r, v) => if u == v { AssignmentGives(db, r, u); }
    case RemoveRole(r, v) => if u == v { RemovalTakes(db, r, u); }
    case GrantPermission(v, p) => if u == v { GrantGives(db, u, p); }
    case RevokePermission(v, p) => if u == v { RevocationTakes(db, u, p); }
    case _ =>
  }

  lemma AssignmentGives(db: Db, r: RoleId, u: UserId)
    requires Accepts(db, AssignRole(r, u))
    ensures EffectiveMask(Apply(db, AssignRole(r, u)).value, u) == EffectiveMask(db, u) + db.roles[r].mask
  {
    var next := Apply(db, AssignRole(r, u)).value;
    assert RoleMask(next, u) == RoleMask(db, u) + db.roles[r].mask;
    assert DirectMask(next, u) == DirectMask(db, u);
  }

  lemma RemovalTakes(db: Db, r: RoleId, u: UserId)
    ensures EffectiveMask(Apply(db, RemoveRole(r, u)).value, u) == DirectMask(db, u) + OtherRolesMask(db, u, r)
  {
    var next := Apply(db, RemoveRole(r, u)).value;
    forall q ensures (u, q) in next.userRoles <==> (u, q) in db.userRoles && q != r {
    }
    assert RoleMask(next, u) == OtherRolesMask(db, u, r);
    assert DirectMask(next, u) == DirectMask(db, u);
  }

  lemma GrantGives(db: Db, u: UserId, p: PermId)
    requires Accepts(db, GrantPermission(u, p))
    ensures EffectiveMask(Apply(db, GrantPermission(u, p)).value, u) == EffectiveMask(db, u) + GrantMask(db, p)
  {
    var next := Apply(db, GrantPermission(u, p)).value;
    assert RoleMask(next, u) == RoleMask(db, u);
    assert DirectMask(next, u) == DirectMask(db, u) + GrantMask(db, p);
  }

  lemma RevocationTakes(db: Db, u: UserId, p: PermId)
    requires Accepts(db, RevokePermission(u, p))
    ensures EffectiveMask(Apply(db, RevokePermission(u, p)).value, u) == RoleMask(db, u) + OtherGrantsMask(db, u, p)
  {
    var next := Apply(db, RevokePermission(u, p)).value;
    assert RoleMask(next, u) == RoleMask(db, u);
    forall q ensures (u, q) in next.userPerms <==> (u, q) in db.userPerms && q != p {
    }
    assert DirectMask(next, u) == OtherGrantsMask(db, u, p);
  }

  // And nobody else's.
  lemma OthersKeepTheirMasks(db: Db, c: Commit, u: UserId)
    requires Wf(db) && Accepts(db, c)
    requires c.AssignRole? || c.RemoveRole? || c.GrantPermission? || c.RevokePermission?
    requires c.user != u
    ensures EffectiveMask(Apply(db, c).value, u) == EffectiveMask(db, u)
  {
    var next := Apply(db, c).value;
    assert forall r :: (u, r) in next.userRoles <==> (u, r) in db.userRoles;
    assert forall p :: (u, p) in next.userPerms <==> (u, p) in db.userPerms;
    assert RoleMask(next, u) == RoleMask(db, u) && DirectMask(next, u) == DirectMask(db, u);
  }
}
