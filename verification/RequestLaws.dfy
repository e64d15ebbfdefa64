/**
 * Which requests succeed, said of the tables: who may hand out, reach, manage and author
 * what. A request passes its guards exactly when its actor may make it, and a request about
 * one link, row or column then leaves it as asked.
 */
module RequestLaws {
  import opened Wrappers
  import opened Registry
  import opened Database
  import opened Delegation
  import opened Services
  import opened TableHistory

  // ------------------------------------------------------------------
  // Authority
  // ------------------------------------------------------------------

  predicate IsSuperuser(db: Db, a: UserId) {
    a in db.users && db.users[a].superuser
  }

  // Some role the account holds may grant this one.
  ghost predicate CouldGrantRole(db: Db, a: UserId, r: RoleId) {
    a in db.users
    && (db.users[a].superuser || exists q: RoleId :: (a, q) in db.userRoles && (q, r) in db.grantRoles)
  }

  ghost predicate CouldGrantPermission(db: Db, a: UserId, p: PermId) {
    a in db.users
    && (db.users[a].superuser || exists q: RoleId :: (a, q) in db.userRoles && (q, p) in db.grantPerms)
  }

  // Users of the account's own tenant.
  predicate Reaches(db: Db, a: UserId, u: UserId) {
    a in db.users && u in db.users && (db.users[a].superuser || db.users[u].tenant == db.users[a].tenant)
  }

  // Roles of the account's own tenant, and the roles of none.
  predicate Manages(db: Db, a: UserId, r: RoleId) {
    && a in db.users && r in db.roles
    && (db.users[a].superuser || db.roles[r].tenant.None? || db.roles[r].tenant == db.users[a].tenant)
  }

  // Within what the account's roles may grant and its tenant's ceiling.
  ghost predicate CouldGrantBit(db: Db, a: UserId, bit: nat) {
    && a in db.users
    && (exists q: RoleId, p: PermId :: (a, q) in db.userRoles && (q, p) in db.grantPerms && p in db.perms
                                       && db.perms[p].bit == Some(bit))
    && (forall t | db.users[a].tenant == Some(t) && t in db.tenants :: bit in db.tenants[t].allowed)
  }

  ghost predicate CouldAuthor(db: Db, a: UserId, names: set<string>) {
    && names <= db.cat.bits.Keys
    && (IsSuperuser(db, a) || forall n | n in names :: CouldGrantBit(db, a, db.cat.bits[n]))
  }

  predicate LoginFree(db: Db, username: string, email: string) {
    forall v | v in db.users :: db.users[v].username != username && db.users[v].email != email
  }

  // Who may make the request, and when.
  ghost predicate May(db: Db, req: Request) {
    match req
    case Register(_, username, email) => LoginFree(db, username, email)
    case Seed(_, _, _) => true
    case CreateUser(a, _, username, email) => a in db.users && LoginFree(db, username, email)
    case ActivateUser(a, target, _) => Reaches(db, a, target)
    case GiveRole(a, target, role) =>
      CouldGrantRole(db, a, role) && role in db.roles && Reaches(db, a, target) && (target, role) !in db.userRoles
    case TakeRole(a, target, role) =>
      CouldGrantRole(db, a, role) && role in db.roles && Reaches(db, a, target) && (target, role) in db.userRoles
    case GivePermission(a, target, p) =>
      CouldGrantPermission(db, a, p) && p in db.perms && Reaches(db, a, target) && (target, p) !in db.userPerms
    case TakePermission(a, target, p) =>
      CouldGrantPermission(db, a, p) && p in db.perms && Reaches(db, a, target) && (target, p) in db.userPerms
    case CreateRole(a, name, names) =>
      && a in db.users && CouldAuthor(db, a, Closure(db.cat.implies, Elements(names)))
      && !RoleNameTaken(db, name, if db.users[a].superuser then None else db.users[a].tenant)
    case UpdateRole(a, role, _) => Manages(db, a, role)
    case DropRole(a, role) => Manages(db, a, role)
    case ExtendRole(a, role, p) =>
      && Manages(db, a, role) && p in db.perms && p !in db.roles[role].perms
      && (IsSuperuser(db, a) || CouldAuthor(db, a, {db.perms[p].name} + ImpliedToAdd(db, role, p)))
    case ReduceRole(a, role, p) => Manages(db, a, role) && p in db.perms && p in db.roles[role].perms
    case AddGrantableRole(a, role, g) =>
      Manages(db, a, role) && g in db.roles && CouldGrantRole(db, a, g) && (role, g) !in db.grantRoles
    case RemoveGrantableRole(a, role, g) => Manages(db, a, role) && g in db.roles && (role, g) in db.grantRoles
    case AddGrantablePermission(a, role, p) =>
      Manages(db, a, role) && p in db.perms && CouldGrantPermission(db, a, p) && (role, p) !in db.grantPerms
    case RemoveGrantablePermission(a, role, p) => Manages(db, a, role) && p in db.perms && (role, p) in db.grantPerms
    case CreateTenant(a, _, name, _, username, email, allowed) =>
      && IsSuperuser(db, a) && LoginFree(db, username, email)
      && (forall t | t in db.tenants :: db.tenants[t].name != name)
      && (allowed.Some? ==> Elements(allowed.value) <= db.cat.bits.Keys)
    case ActivateTenant(a, t, _) => IsSuperuser(db, a) && t in db.tenants
    case UpdateCeiling(a, t, names) => IsSuperuser(db, a) && t in db.tenants && Elements(names) <= db.cat.bits.Keys
  }

  lemma GrantableMeansCould(db: Db, a: UserId)
    requires a in db.users
    ensures forall r: RoleId :: CanGrantRole(db, a, r) <==> CouldGrantRole(db, a, r)
    ensures forall p: PermId :: CanGrantPermission(db, a, p) <==> CouldGrantPermission(db, a, p)
  {
    forall r: RoleId ensures CanGrantRole(db, a, r) <==> CouldGrantRole(db, a, r) {
      if q: RoleId :| (a, q) in db.userRoles && (q, r) in db.grantRoles {
        assert (q, r).0 == q && (q, r).1 == r;
      }
    }
    forall p: PermId ensures CanGrantPermission(db, a, p) <==> CouldGrantPermission(db, a, p) {
      if q: RoleId :| (a, q) in db.userRoles && (q, p) in db.grantPerms {
        assert (q, p).0 == q && (q, p).1 == p;
      }
    }
  }

  lemma GrantableBits(db: Db, a: UserId, bit: nat)
    requires a in db.users
    ensures bit in GrantableMask(db, a) <==> CouldGrantBit(db, a, bit)
  {
    if q: RoleId, p: PermId :| (a, q) in db.userRoles && (q, p) in db.grantPerms && p in db.perms && db.perms[p].bit == Some(bit) {
      assert (q, p).0 == q && (q, p).1 == p;
      assert p in GrantablePerms(db, a);
    }
  }

  // The mask test of the service is authority over each name.
  lemma GrantableNames(db: Db, a: UserId, names: set<string>)
    requires a in db.users && names <= db.cat.bits.Keys
    ensures BitsOf(db.cat, names) - GrantableMask(db, a) == {} <==>
              forall n | n in names :: CouldGrantBit(db, a, db.cat.bits[n])
  {
    forall n | n in names
      ensures db.cat.bits[n] in GrantableMask(db, a) <==> CouldGrantBit(db, a, db.cat.bits[n])
    {
      GrantableBits(db, a, db.cat.bits[n]);
    }
    var excess := BitsOf(db.cat, names) - GrantableMask(db, a);
    if excess != {} {
      var b :| b in excess;
      var n :| n in names && db.cat.bits[n] == b;
      assert !CouldGrantBit(db, a, db.cat.bits[n]);
    } else {
      forall n | n in names ensures CouldGrantBit(db, a, db.cat.bits[n]) {
        assert db.cat.bits[n] in BitsOf(db.cat, names) && db.cat.bits[n] !in excess;
      }
    }
  }

  lemma LoginFreeMeans(db: Db, username: string, email: string)
    ensures UserClash(db, username, email).None? <==> LoginFree(db, username, email)
  {
  }

  predicate IsGrant(req: Request) {
    req.GiveRole? || req.TakeRole? || req.GivePermission? || req.TakePermission?
  }

  predicate IsTenantRequest(req: Request) {
    req.CreateTenant? || req.ActivateTenant? || req.UpdateCeiling?
  }

  lemma GrantsExactly(db: Db, req: Request, order: seq<nat>)
    requires IsGrant(req)
    ensures Decide(db, req, order).Success? <==> May(db, req)
  {
    if req.actor in db.users {
      GrantableMeansCould(db, req.actor);
    }
  }

  lemma TenantRequestsExactly(db: Db, req: Request, order: seq<nat>)
    requires IsTenantRequest(req)
    ensures Decide(db, req, order).Success? <==> May(db, req)
  {
    if req.CreateTenant? {
      LoginFreeMeans(db, req.username, req.email);
    }
  }

  lemma AuthoringExactly(db: Db, req: Request, order: seq<nat>)
    requires req.CreateRole? || req.ExtendRole?
    ensures Decide(db, req, order).Success? <==> May(db, req)
  {
    if req.actor in db.users {
      if req.CreateRole? {
        var names := Closure(db.cat.implies, Elements(req.names));
        if names <= db.cat.bits.Keys {
          GrantableNames(db, req.actor, names);
        }
      } else if req.role in db.roles && req.perm in db.perms {
        var names := {db.perms[req.perm].name} + ImpliedToAdd(db, req.role, req.perm);
        if names <= db.cat.bits.Keys {
          GrantableNames(db, req.actor, names);
        }
      }
    }
  }

  lemma RoleEditsExactly(db: Db, req: Request, order: seq<nat>)
    requires !IsGrant(req) && !IsTenantRequest(req) && !req.CreateRole? && !req.ExtendRole?
    ensures Decide(db, req, order).Success? <==> May(db, req)
  {
    if req.Register? || req.CreateUser? {
      LoginFreeMeans(db, req.username, req.email);
    } else if HasActor(req) && req.actor in db.users {
      GrantableMeansCould(db, req.actor);
    }
  }

  /** A request passes its guards exactly when its actor may make it. */
  lemma DecidedExactly(db: Db, req: Request, order: seq<nat>)
    ensures Decide(db, req, order).Success? <==> May(db, req)
  {
    if IsGrant(req) {
      GrantsExactly(db, req, order);
    } else if IsTenantRequest(req) {
      TenantRequestsExactly(db, req, order);
    } else if req.CreateRole? || req.ExtendRole? {
      AuthoringExactly(db, req, order);
    } else {
      RoleEditsExactly(db, req, order);
    }
  }

  // ------------------------------------------------------------------
  // What was asked is what happens
  // ------------------------------------------------------------------

  // The one link or row a request is about, and what it is to be.
  function AsksFact(req: Request): Option<(Fact, bool)> {
    match req
    case GiveRole(_, u, r) => Some((HoldsRole(u, r), true))
    case TakeRole(_, u, r) => Some((HoldsRole(u, r), false))
    case GivePermission(_, u, p) => Some((HoldsPermission(u, p), true))
    case TakePermission(_, u, p) => Some((HoldsPermission(u, p), false))
    case DropRole(_, r) => Some((IsRole(r), false))
    case ReduceRole(_, r, p) => Some((CarriesPermission(r, p), false))
    case AddGrantableRole(_, r, g) => Some((MayGrantRole(r, g), true))
    case RemoveGrantableRole(_, r, g) => Some((MayGrantRole(r, g), false))
    case AddGrantablePermission(_, r, p) => Some((MayGrantPermission(r, p), true))
    case RemoveGrantablePermission(_, r, p) => Some((MayGrantPermission(r, p), false))
    case _ => None
  }

  lemma AskedIsAccepted(db: Db, req: Request)
    requires Wf(db) && May(db, req) && AsksFact(req).Some?
    ensures SingleCommit(db, req).Some? && Accepts(db, SingleCommit(db, req).value)
    ensures Says(db, SingleCommit(db, req).value, AsksFact(req).value.0) == Some(AsksFact(req).value.1)
    ensures True(db, AsksFact(req).value.0) == !AsksFact(req).value.1
  {
    if IsGrant(req) {
      GrantIsAccepted(db, req);
    } else {
      EditIsAccepted(db, req);
    }
  }

  lemma GrantIsAccepted(db: Db, req: Request)
    requires May(db, req) && IsGrant(req)
    ensures Accepts(db, SingleCommit(db, req).value)
    ensures Says(db, SingleCommit(db, req).value, AsksFact(req).value.0) == Some(AsksFact(req).value.1)
    ensures True(db, AsksFact(req).value.0) == !AsksFact(req).value.1
  {
  }

  lemma EditIsAccepted(db: Db, req: Request)
    requires May(db, req) && AsksFact(req).Some? && !IsGrant(req)
    ensures SingleCommit(db, req).Some? && Accepts(db, SingleCommit(db, req).value)
    ensures Says(db, SingleCommit(db, req).value, AsksFact(req).value.0) == Some(AsksFact(req).value.1)
    ensures True(db, AsksFact(req).value.0) == !AsksFact(req).value.1
  {
  }

  /** Alone, a request for a link or a row succeeds exactly when its actor may make it, and turns it. */
  lemma RequestTurnsFact(db: Db, req: Request, order: seq<nat>)
    requires Wf(db) && AsksFact(req).Some?
    ensures Decide(db, req, order).Success? <==> May(db, req)
    ensures May(db, req) ==>
              var (f, b) := AsksFact(req).value;
              var (end, ok) := ApplyAll(db, Decide(db, req, order).value);
              ok && True(db, f) == !b && True(end, f) == b
  {
    DecidedExactly(db, req, order);
    if May(db, req) {
      AskedIsAccepted(db, req);
      SingleDecision(db, req, order);
      var c := SingleCommit(db, req).value;
      ApplyFirst(db, c, []);
      CommitSays(db, c, AsksFact(req).value.0);
    }
  }

  // The one column a request writes.
  function AsksCell(req: Request): Option<(Column, Cell)> {
    match req
    case ActivateUser(_, u, active) => Some((UserActive(u), Flag(active)))
    case ActivateTenant(_, t, active) => Some((TenantActive(t), Flag(active)))
    case UpdateRole(_, r, name) => Some((RoleName(r), Name(name)))
    case _ => None
  }

  // A role's new name must be its own, or free among its tenant's roles.
  predicate NameFree(db: Db, req: Request) {
    req.UpdateRole? && req.role in db.roles ==>
      req.name == db.roles[req.role].name || !RoleNameTaken(db, req.name, db.roles[req.role].tenant)
  }

  lemma WriteIsAccepted(db: Db, req: Request)
    requires May(db, req) && AsksCell(req).Some?
    ensures SingleCommit(db, req).Some?
    ensures Accepts(db, SingleCommit(db, req).value) <==> NameFree(db, req)
    ensures var (column, cell) := AsksCell(req).value;
            Else(Writes(db, SingleCommit(db, req).value, column), CellOf(db, column)) == cell
  {
  }

  /** Alone, a request to write a column leaves it as asked, unless the name is taken. */
  lemma RequestWritesCell(db: Db, req: Request, order: seq<nat>)
    requires Wf(db) && AsksCell(req).Some?
    ensures Decide(db, req, order).Success? <==> May(db, req)
    ensures May(db, req) ==>
              var (column, cell) := AsksCell(req).value;
              var (end, ok) := ApplyAll(db, Decide(db, req, order).value);
              (ok <==> NameFree(db, req)) && (ok ==> CellOf(end, column) == cell) && (!ok ==> end == db)
  {
    DecidedExactly(db, req, order);
    if May(db, req) {
      WriteIsAccepted(db, req);
      SingleDecision(db, req, order);
      var c := SingleCommit(db, req).value;
      ApplyFirst(db, c, []);
      if Accepts(db, c) {
        CommitWrites(db, c, AsksCell(req).value.0);
      }
    }
  }

  // ------------------------------------------------------------------
  // Taking back
  // ------------------------------------------------------------------

  function Moved(db: Db, u: UserId, times: nat): Db
    requires u in db.users
  {
    db.(users := db.users[u := db.users[u].(version := db.users[u].version + times)])
  }

  lemma AssignedAlone(db: Db, u: UserId, r: RoleId)
    requires Accepts(db, AssignRole(r, u))
    ensures Apply(db, AssignRole(r, u)) == Some(Moved(db, u, 1).(userRoles := db.userRoles + {(u, r)}))
  {
    assert Bump(db.users, {u}) == Moved(db, u, 1).users;
  }

  lemma RemovedAlone(db: Db, u: UserId, r: RoleId)
    requires u in db.users
    ensures Apply(db, RemoveRole(r, u)) == Some(Moved(db, u, 1).(userRoles := db.userRoles - {(u, r)}))
  {
    assert Bump(db.users, {u}) == Moved(db, u, 1).users;
  }

  lemma GiveAlone(db: Db, a: UserId, u: UserId, r: RoleId, order: seq<nat>)
    requires May(db, GiveRole(a, u, r))
    ensures ApplyAll(db, Decide(db, GiveRole(a, u, r), order).value)
            == (Moved(db, u, 1).(userRoles := db.userRoles + {(u, r)}), true)
  {
    DecidedExactly(db, GiveRole(a, u, r), order);
    SingleDecision(db, GiveRole(a, u, r), order);
    ApplyFirst(db, AssignRole(r, u), []);
    AssignedAlone(db, u, r);
  }

  lemma TakeAlone(db: Db, a: UserId, u: UserId, r: RoleId, order: seq<nat>)
    requires May(db, TakeRole(a, u, r))
    ensures Decide(db, TakeRole(a, u, r), order).Success?
    ensures ApplyAll(db, Decide(db, TakeRole(a, u, r), order).value)
            == (Moved(db, u, 1).(userRoles := db.userRoles - {(u, r)}), true)
  {
    DecidedExactly(db, TakeRole(a, u, r), order);
    SingleDecision(db, TakeRole(a, u, r), order);
    ApplyFirst(db, RemoveRole(r, u), []);
    RemovedAlone(db, u, r);
  }

  lemma GiverMayTake(db: Db, a: UserId, u: UserId, r: RoleId)
    requires May(db, GiveRole(a, u, r))
    ensures May(Moved(db, u, 1).(userRoles := db.userRoles + {(u, r)}), TakeRole(a, u, r))
  {
    var mid := Moved(db, u, 1).(userRoles := db.userRoles + {(u, r)});
    if !db.users[a].superuser {
      var q: RoleId :| (a, q) in db.userRoles && (q, r) in db.grantRoles;
      assert (a, q) in mid.userRoles && (q, r) in mid.grantRoles;
    }
  }

  /** Whoever gives a role can take it back, and that undoes all but two moves of the version. */
  lemma TakingUndoesGiving(db: Db, a: UserId, u: UserId, r: RoleId, order: seq<nat>)
    requires May(db, GiveRole(a, u, r))
    ensures var mid := ApplyAll(db, Decide(db, GiveRole(a, u, r), order).value).0;
            && Decide(mid, TakeRole(a, u, r), order).Success?
            && ApplyAll(mid, Decide(mid, TakeRole(a, u, r), order).value) == (Moved(db, u, 2), true)
  {
    GiveAlone(db, a, u, r, order);
    GiverMayTake(db, a, u, r);
    var mid := Moved(db, u, 1).(userRoles := db.userRoles + {(u, r)});
    TakeAlone(mid, a, u, r, order);
    assert mid.userRoles - {(u, r)} == db.userRoles;
    assert Moved(mid, u, 1).users == Moved(db, u, 2).users;
  }

  // ------------------------------------------------------------------
  // New accounts
  // ------------------------------------------------------------------

  // The account a request opens. Whoever registers belongs to no tenant, whoever is created
  // belongs to the tenant of the creator, and only a seed makes a superuser.
  function OpensAccount(db: Db, req: Request): Option<(UserId, User)> {
    match req
    case Register(u, username, email) => Some((u, User(username, email, None, false, true, FIRST_VERSION)))
    case Seed(u, username, email) =>
      if exists v :: v in db.users && db.users[v].username == username then None
      else Some((u, User(username, email, None, true, true, FIRST_VERSION)))
    case CreateUser(a, u, username, email) =>
      if a in db.users then Some((u, User(username, email, db.users[a].tenant, false, true, FIRST_VERSION))) else None
    case _ => None
  }

  // Only a seed can find the e-mail address taken after its guards.
  lemma AccountOpens(db: Db, req: Request, order: seq<nat>)
    requires Wf(db) && May(db, req) && OpensAccount(db, req).Some? && OpensAccount(db, req).value.0 !in db.users
    ensures var (u, row) := OpensAccount(db, req).value;
            var (end, ok) := ApplyAll(db, Decide(db, req, order).value);
            && (ok <==> LoginFree(db, row.username, row.email)) && (!req.Seed? ==> ok)
            && end == if ok then db.(users := db.users[u := row]) else db
  {
    var (u, row) := OpensAccount(db, req).value;
    DecidedExactly(db, req, order);
    LoginFreeMeans(db, row.username, row.email);
    if req.CreateUser? {
      assert TenantExists(db, db.users[req.actor].tenant);
    }
    ApplyFirst(db, InsertUser(u, row.username, row.email, row.tenant, row.superuser), []);
    assert Decide(db, req, order).value == [InsertUser(u, row.username, row.email, row.tenant, row.superuser)];
  }

  // ------------------------------------------------------------------
  // Refusals
  // ------------------------------------------------------------------

  predicate IsConflict(e: Error) {
    e.RoleAlreadyAssigned? || e.RoleNotAssigned? || e.PermissionAlreadyGranted? || e.PermissionNotGranted?
  }

  // The rows a request names, and its actor's hold on them, whatever the links say.
  ghost predicate InReach(db: Db, req: Request) {
    match req
    case GiveRole(a, target, role) => CouldGrantRole(db, a, role) && role in db.roles && Reaches(db, a, target)
    case TakeRole(a, target, role) => CouldGrantRole(db, a, role) && role in db.roles && Reaches(db, a, target)
    case GivePermission(a, target, p) => CouldGrantPermission(db, a, p) && p in db.perms && Reaches(db, a, target)
    case TakePermission(a, target, p) => CouldGrantPermission(db, a, p) && p in db.perms && Reaches(db, a, target)
    case ReduceRole(a, role, p) => Manages(db, a, role) && p in db.perms
    case AddGrantableRole(a, role, g) => Manages(db, a, role) && g in db.roles && CouldGrantRole(db, a, g)
    case RemoveGrantableRole(a, role, g) => Manages(db, a, role) && g in db.roles
    case AddGrantablePermission(a, role, p) => Manages(db, a, role) && p in db.perms && CouldGrantPermission(db, a, p)
    case RemoveGrantablePermission(a, role, p) => Manages(db, a, role) && p in db.perms
    case _ => false
  }

  /** A request is answered with a conflict exactly when its actor may make it but it is already so. */
  lemma ConflictMeansAlreadySo(db: Db, req: Request, order: seq<nat>)
    requires AsksFact(req).Some? && !req.DropRole?
    ensures var answer := Decide(db, req, order);
            answer.Failure? && IsConflict(answer.error) <==>
              InReach(db, req) && True(db, AsksFact(req).value.0) == AsksFact(req).value.1
  {
    if req.actor in db.users {
      GrantableMeansCould(db, req.actor);
    }
  }

  /** Without the right to hand it out, one is told so and nothing about the role, the permission or the user. */
  lemma NoRightNoAnswer(db: Db, req: Request, order: seq<nat>)
    requires IsGrant(req) && req.actor in db.users
    ensures Decide(db, req, order) == Failure(GrantNotAllowed) <==>
              if req.GiveRole? || req.TakeRole? then !CouldGrantRole(db, req.actor, req.role)
              else !CouldGrantPermission(db, req.actor, req.perm)
  {
    GrantableMeansCould(db, req.actor);
  }

  // The role a request works on, when it works on one.
  function Subject(req: Request): Option<RoleId> {
    match req
    case UpdateRole(_, r, _) => Some(r)
    case DropRole(_, r) => Some(r)
    case ExtendRole(_, r, _) => Some(r)
    case ReduceRole(_, r, _) => Some(r)
    case AddGrantableRole(_, r, _) => Some(r)
    case RemoveGrantableRole(_, r, _) => Some(r)
    case AddGrantablePermission(_, r, _) => Some(r)
    case RemoveGrantablePermission(_, r, _) => Some(r)
    case _ => None
  }

  /** Another tenant's role, and another tenant's user, look like ones that do not exist. */
  lemma ForeignLooksMissing(db: Db, req: Request, order: seq<nat>)
    requires HasActor(req) && req.actor in db.users
    ensures Subject(req).Some? && !Manages(db, req.actor, Subject(req).value) ==>
              Decide(db, req, order) == Failure(RoleNotFound)
    ensures req.ActivateUser? && !Reaches(db, req.actor, req.target) ==> Decide(db, req, order) == Failure(UserNotFound)
    ensures (&& IsGrant(req) && !Reaches(db, req.actor, req.target)
             && (if req.GiveRole? || req.TakeRole? then CouldGrantRole(db, req.actor, req.role) && req.role in db.roles
                 else CouldGrantPermission(db, req.actor, req.perm) && req.perm in db.perms)) ==>
              Decide(db, req, order) == Failure(UserNotFound)
  {
    GrantableMeansCould(db, req.actor);
  }
}
