/**
 * What each authenticated request decides (app/services): the guards, in the order they are
 * checked, and the commits that follow when they pass. `order` is the order in which the
 * database returns the rows a request loops over.
 */
module Services {
  import opened Wrappers
  import opened Registry
  import opened Database
  import opened Delegation

  datatype Error =
    | GrantNotAllowed | PermissionAlreadyGranted | PermissionNotFound | PermissionNotGranted
    | RoleExists | RoleNotFound | UnknownName | RoleAlreadyAssigned | RoleNotAssigned
    | UserNotFound | UsernameExist | UserMailExist | SuperuserRequired | TenantNameExists | TenantNotFound
    | IntegrityError

  datatype Request =
    | Register(user: UserId, username: string, email: string)
    | Seed(user: UserId, username: string, email: string)
    | CreateUser(actor: UserId, user: UserId, username: string, email: string)
    | ActivateUser(actor: UserId, target: UserId, active: bool)
    | GiveRole(actor: UserId, target: UserId, role: RoleId)
    | TakeRole(actor: UserId, target: UserId, role: RoleId)
    | GivePermission(actor: UserId, target: UserId, perm: PermId)
    | TakePermission(actor: UserId, target: UserId, perm: PermId)
    | CreateRole(actor: UserId, name: string, names: seq<string>)
    | UpdateRole(actor: UserId, role: RoleId, name: string)
    | DropRole(actor: UserId, role: RoleId)
    | ExtendRole(actor: UserId, role: RoleId, perm: PermId)
    | ReduceRole(actor: UserId, role: RoleId, perm: PermId)
    | AddGrantableRole(actor: UserId, role: RoleId, grantable: RoleId)
    | RemoveGrantableRole(actor: UserId, role: RoleId, grantable: RoleId)
    | AddGrantablePermission(actor: UserId, role: RoleId, perm: PermId)
    | RemoveGrantablePermission(actor: UserId, role: RoleId, perm: PermId)
    | CreateTenant(actor: UserId, tenant: TenantId, name: string, admin: UserId, username: string, email: string,
                   allowed: Option<seq<string>>)
    | ActivateTenant(actor: UserId, tenant: TenantId, active: bool)
    | UpdateCeiling(actor: UserId, tenant: TenantId, names: seq<string>)

  type Decision = Result<seq<Commit>, Error>

  // The members of a set in the database's row order.
  function Arrange(s: set<nat>, order: seq<nat>): (r: seq<nat>)
    ensures forall x | x in r :: x in s
    ensures s <= Elements(order) ==> Elements(r) == s
  {
    if order == [] then []
    else
      var rest := Arrange(s - {order[0]}, order[1..]);
      assert Elements(order) == {order[0]} + Elements(order[1..]);
      if order[0] in s then
        assert Elements([order[0]] + rest) == {order[0]} + Elements(rest);
        [order[0]] + rest
      else
        assert s - {order[0]} == s;
        rest
  }

  // `_ensure_role_in_scope`
  predicate InScope(db: Db, actor: UserId, role: RoleId)
    requires actor in db.users && role in db.roles
  {
    || db.users[actor].superuser
    || db.roles[role].tenant.None?
    || db.roles[role].tenant == db.users[actor].tenant
  }

  // `get_role`
  predicate FindsRole(db: Db, actor: UserId, role: RoleId)
    requires actor in db.users
  {
    role in db.roles && InScope(db, actor, role)
  }

  // `_ensure_same_tenant`, after the target is loaded
  predicate FindsUser(db: Db, actor: UserId, target: UserId)
    requires actor in db.users
  {
    target in db.users && (db.users[actor].superuser || db.users[target].tenant == db.users[actor].tenant)
  }

  // `_grantable_mask_for`
  function GrantableMask(db: Db, actor: UserId): Mask
    requires actor in db.users
  {
    var mask := RowBits(db, GrantablePerms(db, actor));
    match db.users[actor].tenant
    case None => mask
    case Some(t) => if t in db.tenants then mask * db.tenants[t].allowed else mask
  }

  function RolesOf(db: Db, u: UserId): set<RoleId> {
    set l | l in db.userRoles && l.0 == u :: l.1
  }

  function NamesOf(db: Db, perms: set<PermId>): set<string> {
    set p | p in perms && p in db.perms :: db.perms[p].name
  }

  function LinkEach(roles: seq<RoleId>, grantable: RoleId): seq<Commit> {
    if roles == [] then [] else [LinkRole(roles[0], grantable)] + LinkEach(roles[1..], grantable)
  }

  function AddEach(role: RoleId, perms: seq<PermId>, read: Mask): (r: seq<Commit>)
    ensures |r| == |perms| && forall i | 0 <= i < |perms| :: r[i] == AddPermission(role, perms[i], read)
  {
    if perms == [] then [] else [AddPermission(role, perms[0], read)] + AddEach(role, perms[1..], read)
  }

  // ------------------------------------------------------------------
  // app/services/users/user_management_service.py
  // ------------------------------------------------------------------

  ghost function NewUser(db: Db, user: UserId, username: string, email: string, home: Option<TenantId>,
                         superuser: bool): Decision
  {
    match UserClash(db, username, email)
    case Some(e) => Failure(e)
    case None => Success([InsertUser(user, username, email, home, superuser)])
  }

  function UserClash(db: Db, username: string, email: string): Option<Error> {
    if exists v :: v in db.users && db.users[v].username == username then Some(UsernameExist)
    else if exists v :: v in db.users && db.users[v].email == email then Some(UserMailExist)
    else None
  }

  function DecideGiveRole(db: Db, actor: UserId, target: UserId, role: RoleId): Decision
    requires actor in db.users
  {
    if !CanGrantRole(db, actor, role) then Failure(GrantNotAllowed)
    else if role !in db.roles then Failure(RoleNotFound)
    else if !FindsUser(db, actor, target) then Failure(UserNotFound)
    else if (target, role) in db.userRoles then Failure(RoleAlreadyAssigned)
    else Success([AssignRole(role, target)])
  }

  function DecideTakeRole(db: Db, actor: UserId, target: UserId, role: RoleId): Decision
    requires actor in db.users
  {
    if !CanGrantRole(db, actor, role) then Failure(GrantNotAllowed)
    else if role !in db.roles then Failure(RoleNotFound)
    else if !FindsUser(db, actor, target) then Failure(UserNotFound)
    else if (target, role) !in db.userRoles then Failure(RoleNotAssigned)
    else Success([RemoveRole(role, target)])
  }

  function DecideGivePermission(db: Db, actor: UserId, target: UserId, perm: PermId): Decision
    requires actor in db.users
  {
    if !CanGrantPermission(db, actor, perm) then Failure(GrantNotAllowed)
    else if perm !in db.perms then Failure(PermissionNotFound)
    else if !FindsUser(db, actor, target) then Failure(UserNotFound)
    else if (target, perm) in db.userPerms then Failure(PermissionAlreadyGranted)
    else Success([GrantPermission(target, perm)])
  }

  function DecideTakePermission(db: Db, actor: UserId, target: UserId, perm: PermId): Decision
    requires actor in db.users
  {
    if !CanGrantPermission(db, actor, perm) then Failure(GrantNotAllowed)
    else if perm !in db.perms then Failure(PermissionNotFound)
    else if !FindsUser(db, actor, target) then Failure(UserNotFound)
    else if (target, perm) !in db.userPerms then Failure(PermissionNotGranted)
    else Success([RevokePermission(target, perm)])
  }

  // ------------------------------------------------------------------
  // app/services/rbac/role_service.py
  // ------------------------------------------------------------------

  ghost function DecideCreateRole(db: Db, actor: UserId, name: string, names: seq<string>, order: seq<nat>): Decision
    requires actor in db.users
  {
    var superuser := db.users[actor].superuser;
    var tenant := if superuser then None else db.users[actor].tenant;
    if RoleNameTaken(db, name, tenant) then Failure(RoleExists)
    else
      var expanded := Closure(db.cat.implies, Elements(names));
      match MaskFor(db.cat, expanded)
      case Failure(_) => Failure(UnknownName)
      case Success(requested) =>
        if !superuser && requested - GrantableMask(db, actor) != {} then Failure(GrantNotAllowed)
        else
          var links := if superuser then [] else LinkEach(Arrange(RolesOf(db, actor), order), db.nextRole);
          Success([InsertRole(db.nextRole, Role(name, tenant, requested, RowsNamed(db, expanded)))] + links)
  }

  // The names adding `perm` to a role adds: itself and what it implies, less what is there.
  ghost function ImpliedToAdd(db: Db, role: RoleId, perm: PermId): set<string>
    requires role in db.roles && perm in db.perms
  {
    var name := db.perms[perm].name;
    Closure(db.cat.implies, {name}) - NamesOf(db, db.roles[role].perms) - {name}
  }

  ghost function DecideExtendRole(db: Db, actor: UserId, role: RoleId, perm: PermId, order: seq<nat>): Decision
    requires actor in db.users
  {
    if !FindsRole(db, actor, role) then Failure(RoleNotFound)
    else if perm !in db.perms then Failure(PermissionNotFound)
    else if perm in db.roles[role].perms then Failure(PermissionAlreadyGranted)
    else
      var implied := ImpliedToAdd(db, role, perm);
      var adds := AddEach(role, [perm] + Arrange(RowsNamed(db, implied), order), db.roles[role].mask);
      if db.users[actor].superuser then Success(adds)
      else
        match MaskFor(db.cat, {db.perms[perm].name} + implied)
        case Failure(_) => Failure(UnknownName)
        case Success(requested) =>
          if requested - GrantableMask(db, actor) != {} then Failure(GrantNotAllowed) else Success(adds)
  }

  function DecideReduceRole(db: Db, actor: UserId, role: RoleId, perm: PermId): Decision
    requires actor in db.users
  {
    if !FindsRole(db, actor, role) then Failure(RoleNotFound)
    else if perm !in db.perms then Failure(PermissionNotFound)
    else if perm !in db.roles[role].perms then Failure(PermissionNotGranted)
    else Success([RemovePermission(role, perm, db.roles[role].mask)])
  }

  function DecideAddGrantableRole(db: Db, actor: UserId, role: RoleId, grantable: RoleId): Decision
    requires actor in db.users
  {
    if !FindsRole(db, actor, role) then Failure(RoleNotFound)
    else if grantable !in db.roles then Failure(RoleNotFound)
    else if !db.users[actor].superuser && grantable !in GrantableRoles(db, actor) then Failure(GrantNotAllowed)
    else if (role, grantable) in db.grantRoles then Failure(PermissionAlreadyGranted)
    else Success([LinkRole(role, grantable)])
  }

  function DecideRemoveGrantableRole(db: Db, actor: UserId, role: RoleId, grantable: RoleId): Decision
    requires actor in db.users
  {
    if !FindsRole(db, actor, role) then Failure(RoleNotFound)
    else if grantable !in db.roles then Failure(RoleNotFound)
    else if (role, grantable) !in db.grantRoles then Failure(PermissionNotGranted)
    else Success([UnlinkRole(role, grantable)])
  }

  function DecideAddGrantablePermission(db: Db, actor: UserId, role: RoleId, perm: PermId): Decision
    requires actor in db.users
  {
    if !FindsRole(db, actor, role) then Failure(RoleNotFound)
    else if perm !in db.perms then Failure(PermissionNotFound)
    else if !db.users[actor].superuser && perm !in GrantablePerms(db, actor) then Failure(GrantNotAllowed)
    else if (role, perm) in db.grantPerms then Failure(PermissionAlreadyGranted)
    else Success([LinkPermission(role, perm)])
  }

  function DecideRemoveGrantablePermission(db: Db, actor: UserId, role: RoleId, perm: PermId): Decision
    requires actor in db.users
  {
    if !FindsRole(db, actor, role) then Failure(RoleNotFound)
    else if perm !in db.perms then Failure(PermissionNotFound)
    else if (role, perm) !in db.grantPerms then Failure(PermissionNotGranted)
    else Success([UnlinkPermission(role, perm)])
  }

  // ------------------------------------------------------------------
  // app/services/tenant/tenant_service.py
  // ------------------------------------------------------------------

  ghost function DecideCreateTenant(db: Db, actor: UserId, tenant: TenantId, name: string, admin: UserId,
                                    username: string, email: string, allowed: Option<seq<string>>): Decision
    requires actor in db.users
  {
    if !db.users[actor].superuser then Failure(SuperuserRequired)
    else if exists t :: t in db.tenants && db.tenants[t].name == name then Failure(TenantNameExists)
    else
      match NewUser(db, admin, username, email, Some(tenant), false)
      case Failure(e) => Failure(e)
      case Success(_) =>
        match CeilingOf(db.cat, allowed)
        case Failure(_) => Failure(UnknownName)
        case Success(ceiling) =>
          Success(BootstrapCommits(db.nextRole, tenant, name, admin, username, email, ceiling))
  }

  function BootstrapCommits(role: RoleId, tenant: TenantId, name: string, admin: UserId, username: string,
                            email: string, ceiling: Mask): seq<Commit>
  {
    [InsertTenant(tenant, name, ceiling), CreateRootRole(role, tenant, ceiling),
     InsertUser(admin, username, email, Some(tenant), false), AssignRole(role, admin)]
  }

  function CeilingOf(cat: Catalog, allowed: Option<seq<string>>): Result<Mask, UnknownPermission> {
    match allowed
    case None => Success(TenantRoleMask(cat))
    case Some(names) =>
      match MaskFor(cat, Elements(names))
      case Failure(e) => Failure(e)
      case Success(mask) => Success(mask * TenantRoleMask(cat))
  }

  function DecideUpdateCeiling(db: Db, actor: UserId, tenant: TenantId, allowed: seq<string>): Decision
    requires actor in db.users
  {
    if !db.users[actor].superuser then Failure(SuperuserRequired)
    else if tenant !in db.tenants then Failure(TenantNotFound)
    else
      match CeilingOf(db.cat, Some(allowed))
      case Failure(_) => Failure(UnknownName)
      case Success(ceiling) => 
        Success([SetCeiling(tenant, ceiling, db.tenants[tenant].allowed), SyncRootRole(tenant, ceiling)])
  }

  // ------------------------------------------------------------------
  // Any request
  // ------------------------------------------------------------------

  predicate HasActor(req: Request) {
    !req.Register? && !req.Seed?
  }

  ghost function Decide(db: Db, req: Request, order: seq<nat>): Decision {
    if HasActor(req) && req.actor !in db.users then Failure(UserNotFound)
    else
      match req
      case Register(u, username, email) => NewUser(db, u, username, email, None, false)
      case Seed(u, username, email) =>
        if exists v :: v in db.users && db.users[v].username == username then Success([])
        else Success([InsertUser(u, username, email, None, true)])
      case CreateUser(a, u, username, email) => NewUser(db, u, username, email, db.users[a].tenant, false)
      case ActivateUser(a, target, active) =>
        if FindsUser(db, a, target) then Success([SetUserActive(target, active, db.users[target].active)]) else Failure(UserNotFound)
      case GiveRole(a, target, role) => DecideGiveRole(db, a, target, role)
      case TakeRole(a, target, role) => DecideTakeRole(db, a, target, role)
      case GivePermission(a, target, perm) => DecideGivePermission(db, a, target, perm)
      case TakePermission(a, target, perm) => DecideTakePermission(db, a, target, perm)
      case CreateRole(a, name, names) => DecideCreateRole(db, a, name, names, order)
      case UpdateRole(a, role, name) =>
        if FindsRole(db, a, role) then Success([RenameRole(role, name, db.roles[role].name)]) else Failure(RoleNotFound)
      case DropRole(a, role) =>
        if FindsRole(db, a, role) then Success([DeleteRole(role)]) else Failure(RoleNotFound)
      case ExtendRole(a, role, perm) => DecideExtendRole(db, a, role, perm, order)
      case ReduceRole(a, role, perm) => DecideReduceRole(db, a, role, perm)
      case AddGrantableRole(a, role, g) => DecideAddGrantableRole(db, a, role, g)
      case RemoveGrantableRole(a, role, g) => DecideRemoveGrantableRole(db, a, role, g)
      case AddGrantablePermission(a, role, perm) => DecideAddGrantablePermission(db, a, role, perm)
      case RemoveGrantablePermission(a, role, perm) => DecideRemoveGrantablePermission(db, a, role, perm)
      case CreateTenant(a, t, name, admin, username, email, allowed) =>
        DecideCreateTenant(db, a, t, name, admin, username, email, allowed)
      case ActivateTenant(a, t, active) =>
        if !db.users[a].superuser then Failure(SuperuserRequired)
        else if t !in db.tenants then Failure(TenantNotFound)
        else Success([SetTenantActive(t, active, db.tenants[t].active)])
      case UpdateCeiling(a, t, allowed) => DecideUpdateCeiling(db, a, t, allowed)
  }

  // The one commit a request makes when its guards pass, for requests that make one.
  function SingleCommit(db: Db, req: Request): Option<Commit> {
    match req
    case ActivateUser(_, target, active) =>
      if target in db.users then Some(SetUserActive(target, active, db.users[target].active)) else None
    case GiveRole(_, target, role) => Some(AssignRole(role, target))
    case TakeRole(_, target, role) => Some(RemoveRole(role, target))
    case GivePermission(_, target, perm) => Some(GrantPermission(target, perm))
    case TakePermission(_, target, perm) => Some(RevokePermission(target, perm))
    case UpdateRole(_, role, name) =>
      if role in db.roles then Some(RenameRole(role, name, db.roles[role].name)) else None
    case DropRole(_, role) => Some(DeleteRole(role))
    case ReduceRole(_, role, perm) =>
      if role in db.roles then Some(RemovePermission(role, perm, db.roles[role].mask)) else None
    case AddGrantableRole(_, role, g) => Some(LinkRole(role, g))
    case RemoveGrantableRole(_, role, g) => Some(UnlinkRole(role, g))
    case AddGrantablePermission(_, role, perm) => Some(LinkPermission(role, perm))
    case RemoveGrantablePermission(_, role, perm) => Some(UnlinkPermission(role, perm))
    case ActivateTenant(_, t, active) =>
      if t in db.tenants then Some(SetTenantActive(t, active, db.tenants[t].active)) else None
    case _ => None
  }

  lemma SingleDecision(db: Db, req: Request, order: seq<nat>)
    requires SingleCommit(db, req).Some? && Decide(db, req, order).Success?
    ensures Decide(db, req, order).value == [SingleCommit(db, req).value]
  {
  }

  lemma {:induction false} LinkEachIs(roles: seq<RoleId>, g: RoleId)
    ensures forall c | c in LinkEach(roles, g) :: c.LinkRole? && c.role in roles && c.grantable == g
  {
    if roles != [] {
      LinkEachIs(roles[1..], g);
    }
  }

  // What an extend-role request commits to, one add at a time.
  lemma ExtendDecision(db: Db, actor: UserId, role: RoleId, perm: PermId, order: seq<nat>)
    requires actor in db.users && Decide(db, ExtendRole(actor, role, perm), order).Success?
    ensures role in db.roles && perm in db.perms && perm !in db.roles[role].perms
    ensures forall c | c in Decide(db, ExtendRole(actor, role, perm), order).value ::
              && c.AddPermission? && c.role == role && c.read == db.roles[role].mask
              && c.perm in RowsNamed(db, {db.perms[perm].name} + ImpliedToAdd(db, role, perm))
  {
    var rest := Arrange(RowsNamed(db, ImpliedToAdd(db, role, perm)), order);
    var cs := Decide(db, ExtendRole(actor, role, perm), order).value;
    assert cs == AddEach(role, [perm] + rest, db.roles[role].mask);
    forall c | c in cs
      ensures c.AddPermission? && c.role == role && c.read == db.roles[role].mask
      ensures c.perm == perm || c.perm in rest
    {
      var i :| 0 <= i < |cs| && c == cs[i];
      assert c.perm == ([perm] + rest)[i];
    }
  }

  lemma AddEachReloaded(db: Db, role: RoleId, perms: seq<PermId>, read: Mask)
    requires role in db.roles
    ensures Reloaded(db, AddEach(role, perms, read)) == AddEach(role, perms, db.roles[role].mask)
  {
  }

  // One turn of either loop.
  lemma AddEachStep(db: Db, role: RoleId, perms: seq<PermId>, read: Mask)
    requires perms != []
    ensures match Apply(db, AddPermission(role, perms[0], read))
            case None => ApplyAll(db, AddEach(role, perms, read)) == (db, false)
            case Some(next) =>
              && role in next.roles
              && ApplyAll(db, AddEach(role, perms, read))
                 == ApplyAll(next, AddEach(role, perms[1..], next.roles[role].mask))
  {
    ApplyFirst(db, AddPermission(role, perms[0], read), AddEach(role, perms[1..], read));
    match Apply(db, AddPermission(role, perms[0], read))
    case None =>
    case Some(next) => AddEachReloaded(next, role, perms[1..], read);
  }

  lemma LinkEachStep(db: Db, roles: seq<RoleId>, g: RoleId)
    requires roles != []
    ensures match Apply(db, LinkRole(roles[0], g))
            case None => ApplyAll(db, LinkEach(roles, g)) == (db, false)
            case Some(next) => ApplyAll(db, LinkEach(roles, g)) == ApplyAll(next, LinkEach(roles[1..], g))
  {
    ApplyFirst(db, LinkRole(roles[0], g), LinkEach(roles[1..], g));
    LinkEachIs(roles[1..], g);
    match Apply(db, LinkRole(roles[0], g))
    case None =>
    case Some(next) => NothingToReload(next, LinkEach(roles[1..], g));
  }

  lemma ApplyFirst(db: Db, c: Commit, rest: seq<Commit>)
    ensures ApplyAll(db, [c] + rest)
            == match Apply(db, c) case None => (db, false) case Some(next) => ApplyAll(next, Reloaded(next, rest))
    ensures ApplyAll(db, [c]) == match Apply(db, c) case None => (db, false) case Some(next) => (next, true)
  {
  }
}
