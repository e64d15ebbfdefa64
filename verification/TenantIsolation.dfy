/**
 * Tenant isolation: in a system that grew from nothing, where superusers bootstrap tenants
 * and leave roles, links and grants to others, every user-role link and every
 * role-grants-role link joins two sides of one tenant.
 *
 * Here the gates of the routes matter: an account that registered itself belongs to no
 * tenant, and only a gate keeps it from authoring a role that would belong to none either.
 */
module TenantIsolation {
  import opened Wrappers
  import opened Registry
  import opened Database
  import opened Delegation
  import opened Services
  import opened RbacRuns

  // The permission each route asks for, where it asks for one (app/api/v1/routes).
  function Gate(req: Request): Option<string> {
    match req
    case CreateUser(_, _, _, _) => Some("user:create")
    case ActivateUser(_, _, _) => Some("user:deactivate")
    case CreateRole(_, _, _) => Some("role:create")
    case UpdateRole(_, _, _) => Some("role:update")
    case DropRole(_, _) => Some("role:delete")
    case ExtendRole(_, _, _) => Some("role:add-permission")
    case ReduceRole(_, _, _) => Some("role:delete-permission")
    case AddGrantableRole(_, _, _) => Some("role:update")
    case RemoveGrantableRole(_, _, _) => Some("role:update")
    case AddGrantablePermission(_, _, _) => Some("role:update")
    case RemoveGrantablePermission(_, _, _) => Some("role:update")
    case _ => None
  }

  // Passed on the strength of some token of the actor, however old.
  ghost predicate PassesGate(s: State, req: Request) {
    HasActor(req) && req.actor in s.db.users && Gate(req).Some? ==>
      && Gate(req).value in s.db.cat.bits
      && exists m :: (req.actor, m) in s.tokens
                     && PermissionRequired(s.db.cat, s.db.users[req.actor].superuser, m, Gate(req).value)
  }

  // What superusers are assumed not to do themselves.
  predicate SuperuserAbstains(db: Db, req: Request) {
    HasActor(req) && req.actor in db.users && db.users[req.actor].superuser ==>
      !req.CreateRole? && !req.GiveRole? && !req.GivePermission? && !req.AddGrantableRole?
  }

  ghost predicate AllowedStep(s: State, l: Label) {
    l.Starts? ==> PassesGate(s, l.req) && SuperuserAbstains(s.db, l.req)
  }

  ghost predicate EmptySystem(db: Db) {
    db.users == map[] && db.roles == map[] && db.tenants == map[]
  }

  predicate SameTenant(ledger: Ledger, c: Commit) {
    match c
    case InsertRole(_, row) => row.tenant.Some?
    case AssignRole(r, u) => r in ledger.owner && u in ledger.home && ledger.owner[r] == ledger.home[u]
    case LinkRole(r, g) => r in ledger.owner && g in ledger.owner && ledger.owner[r] == ledger.owner[g]
    case GrantPermission(u, _) => u in ledger.home && ledger.home[u].Some?
    case _ => true
  }

  ghost predicate AllSameTenant(ledger: Ledger, cs: seq<Commit>) {
    forall c | c in cs :: SameTenant(ledger, c)
  }

  // The isolation property itself.
  ghost predicate Isolated(db: Db) {
    && (forall l | l in db.userRoles ::
          l.0 in db.users && l.1 in db.roles && db.roles[l.1].tenant == db.users[l.0].tenant)
    && (forall l | l in db.grantRoles ::
          l.0 in db.roles && l.1 in db.roles && db.roles[l.0].tenant == db.roles[l.1].tenant)
  }

  ghost predicate EveryoneHasTenant(db: Db) {
    && (forall r | r in db.roles :: db.roles[r].tenant.Some?)
    && (forall l | l in db.userPerms :: l.0 in db.users && db.users[l.0].tenant.Some?)
  }

  // Whoever belongs to no tenant has only ever been given empty masks.
  ghost predicate MasksNeedTenant(s: State, pairs: set<(UserId, Mask)>) {
    forall x | x in pairs && x.1 != {} :: x.0 in s.ledger.home && s.ledger.home[x.0].Some?
  }

  ghost predicate Inv(s: State) {
    && Isolated(s.db) && EveryoneHasTenant(s.db)
    && MasksNeedTenant(s, s.roleReads) && MasksNeedTenant(s, s.tokens)
    && forall i | 0 <= i < |s.inflight| :: AllSameTenant(s.ledger, s.inflight[i])
  }

  lemma CommitKeepsUserLinks(db: Db, ledger: Ledger, c: Commit)
    requires Wf(db) && RowsKnown(db, ledger) && Isolated(db)
    requires Accepts(db, c) && SameTenant(ledger, c)
    ensures var next := Apply(db, c).value;
            forall l | l in next.userRoles ::
              l.0 in next.users && l.1 in next.roles && next.roles[l.1].tenant == next.users[l.0].tenant
  {
    var next := Apply(db, c).value;
    UsersAreMonotone(db, c);
    RowsAreMonotone(db, c);
    ApplyKeepsUserLinks(db, c);
    forall l | l in next.userRoles ensures next.roles[l.1].tenant == next.users[l.0].tenant {
      assert l in db.userRoles || c == AssignRole(l.1, l.0);
    }
  }

  lemma CommitKeepsRoleLinks(db: Db, ledger: Ledger, c: Commit)
    requires Wf(db) && RowsKnown(db, ledger) && Isolated(db)
    requires Accepts(db, c) && SameTenant(ledger, c)
    ensures var next := Apply(db, c).value;
            forall l | l in next.grantRoles ::
              l.0 in next.roles && l.1 in next.roles && next.roles[l.0].tenant == next.roles[l.1].tenant
  {
    var next := Apply(db, c).value;
    RowsAreMonotone(db, c);
    ApplyKeepsLinks(db, c);
    forall l | l in next.grantRoles ensures next.roles[l.0].tenant == next.roles[l.1].tenant {
      assert l in db.grantRoles || c == LinkRole(l.0, l.1);
      assert l.0 in db.roles && l.1 in db.roles;
    }
  }

  lemma CommitKeepsTenants(db: Db, ledger: Ledger, c: Commit)
    requires Wf(db) && RowsKnown(db, ledger) && EveryoneHasTenant(db)
    requires Accepts(db, c) && Known(db, ledger, c) && SameTenant(ledger, c)
    ensures EveryoneHasTenant(Apply(db, c).value)
  {
    RolesKeepTenants(db, c);
    UsersAreMonotone(db, c);
    var next := Apply(db, c).value;
    forall l | l in next.userPerms ensures l.0 in next.users && next.users[l.0].tenant.Some? {
      assert l in db.userPerms || c == GrantPermission(l.0, l.1);
    }
  }

  lemma RolesKeepTenants(db: Db, c: Commit)
    requires Accepts(db, c) && (c.InsertRole? ==> c.row.tenant.Some?)
    requires forall r | r in db.roles :: db.roles[r].tenant.Some?
    ensures forall r | r in Apply(db, c).value.roles :: Apply(db, c).value.roles[r].tenant.Some?
  {
  }

  lemma SameTenantOutlives(a: Ledger, b: Ledger, cs: seq<Commit>)
    requires AllSameTenant(a, cs) && Extends(a, b)
    ensures AllSameTenant(b, cs)
  {
  }

  lemma ReloadedSameTenant(db: Db, ledger: Ledger, cs: seq<Commit>)
    requires AllSameTenant(ledger, cs)
    ensures AllSameTenant(ledger, Reloaded(db, cs))
  {
    forall c | c in Reloaded(db, cs) ensures SameTenant(ledger, c) {
      var i :| 0 <= i < |cs| && c == Reload(db, cs[i]);
    }
  }

  // ------------------------------------------------------------------
  // Requests
  // ------------------------------------------------------------------

  lemma GrantableIsSameTenant(s: State, actor: UserId)
    requires Sane(s) && Inv(s) && actor in s.db.users
    ensures forall r | r in GrantableRoles(s.db, actor) ::
              r in s.ledger.owner && s.ledger.owner[r] == s.ledger.home[actor]
    ensures forall r | r in RolesOf(s.db, actor) :: r in s.ledger.owner && s.ledger.owner[r] == s.ledger.home[actor]
    ensures GrantablePerms(s.db, actor) != {} ==> s.db.users[actor].tenant.Some?
  {
  }

  lemma SingleIsSameTenant(s: State, req: Request, order: seq<nat>)
    requires Sane(s) && Inv(s) && SuperuserAbstains(s.db, req)
    requires SingleCommit(s.db, req).Some? && Decide(s.db, req, order).Success?
    ensures SameTenant(s.ledger, SingleCommit(s.db, req).value)
  {
  }

  lemma GateNeedsTenant(s: State, req: Request)
    requires Sane(s) && Inv(s) && PassesGate(s, req) && Gate(req).Some?
    requires HasActor(req) && req.actor in s.db.users && !s.db.users[req.actor].superuser
    ensures s.db.users[req.actor].tenant.Some?
  {
  }

  lemma CreateRoleIsSameTenant(s: State, req: Request, order: seq<nat>)
    requires Sane(s) && Inv(s) && req.CreateRole? && Decide(s.db, req, order).Success?
    requires AllowedStep(s, Starts(req, order))
    ensures AllSameTenant(Reserve(s.ledger, s.db, req), Decide(s.db, req, order).value)
  {
    GateNeedsTenant(s, req);
    GrantableIsSameTenant(s, req.actor);
    LinksAreSameTenant(Reserve(s.ledger, s.db, req), Arrange(RolesOf(s.db, req.actor), order), s.db.nextRole);
  }

  lemma LinksAreSameTenant(ledger: Ledger, roles: seq<RoleId>, g: RoleId)
    requires g in ledger.owner && forall r | r in roles :: r in ledger.owner && ledger.owner[r] == ledger.owner[g]
    ensures AllSameTenant(ledger, LinkEach(roles, g))
  {
  }

  lemma OtherIsSameTenant(s: State, req: Request, order: seq<nat>)
    requires Sane(s) && Decide(s.db, req, order).Success?
    requires req.Register? || req.Seed? || req.CreateUser? || req.CreateTenant? || req.ExtendRole? || req.UpdateCeiling?
    ensures AllSameTenant(Reserve(s.ledger, s.db, req), Decide(s.db, req, order).value)
  {
    match req
    case ExtendRole(_, role, perm) =>
      ExtendDecision(s.db, req.actor, role, perm, order);
    case CreateTenant(_, _, _, _, _, _, _) => CreateTenantIsSameTenant(s, req, order);
    case _ =>
  }

  lemma CreateTenantIsSameTenant(s: State, req: Request, order: seq<nat>)
    requires req.CreateTenant? && Decide(s.db, req, order).Success?
    ensures AllSameTenant(Reserve(s.ledger, s.db, req), Decide(s.db, req, order).value)
  {
  }

  lemma DecisionIsSameTenant(s: State, req: Request, order: seq<nat>)
    requires Sane(s) && Inv(s) && AllowedStep(s, Starts(req, order)) && Decide(s.db, req, order).Success?
    ensures AllSameTenant(Reserve(s.ledger, s.db, req), Decide(s.db, req, order).value)
  {
    if SingleCommit(s.db, req).Some? {
      SingleIsSameTenant(s, req, order);
      SingleDecision(s.db, req, order);
    } else if req.CreateRole? {
      CreateRoleIsSameTenant(s, req, order);
    } else {
      OtherIsSameTenant(s, req, order);
    }
  }

  // ------------------------------------------------------------------
  // Runs
  // ------------------------------------------------------------------

  lemma StartKeepsInv(s: State, req: Request, order: seq<nat>)
    requires Sane(s) && Inv(s) && Enabled(s, Starts(req, order)) && AllowedStep(s, Starts(req, order))
    ensures Inv(Start(s, req, order))
  {
    if Decide(s.db, req, order).Success? {
      var t := Start(s, req, order);
      DecisionIsSameTenant(s, req, order);
      ReserveExtends(s.db, s.ledger, req);
      forall i | 0 <= i < |t.inflight| ensures AllSameTenant(t.ledger, t.inflight[i]) {
        if i < |s.inflight| {
          SameTenantOutlives(s.ledger, t.ledger, s.inflight[i]);
        }
      }
    }
  }

  lemma CommitKeepsInv(s: State, i: nat)
    requires Sane(s) && Inv(s) && i < |s.inflight| && s.inflight[i] != []
    ensures Inv(CommitNext(s, i))
  {
    var c, t := s.inflight[i][0], CommitNext(s, i);
    assert AllKnown(s.db, s.ledger, s.inflight[i]) && Known(s.db, s.ledger, c);
    assert AllSameTenant(s.ledger, s.inflight[i]) && SameTenant(s.ledger, c);
    RecordExtends(s.ledger, c);
    if Accepts(s.db, c) {
      CommitKeepsUserLinks(s.db, s.ledger, c);
      CommitKeepsRoleLinks(s.db, s.ledger, c);
      CommitKeepsTenants(s.db, s.ledger, c);
    }
    forall j | 0 <= j < |t.inflight| ensures AllSameTenant(t.ledger, t.inflight[j]) {
      SameTenantOutlives(s.ledger, t.ledger, s.inflight[j]);
      if j == i {
        ReloadedSameTenant(t.db, t.ledger, s.inflight[i][1..]);
      }
    }
  }

  // Without a tenant there is no role and no grant, so every mask read is empty.
  lemma NoTenantNoMask(s: State, u: UserId)
    requires Sane(s) && Inv(s)
    ensures RoleMask(s.db, u) != {} || DirectMask(s.db, u) != {} ==> u in s.ledger.home && s.ledger.home[u].Some?
  {
  }

  lemma StepKeepsInv(s: State, l: Label)
    requires Sane(s) && Inv(s) && Enabled(s, l) && AllowedStep(s, l)
    ensures Inv(Next(s, l))
  {
    match l
    case Starts(req, order) => StartKeepsInv(s, req, order);
    case Commits(i) => CommitKeepsInv(s, i);
    case Fails(_) =>
    case ReadsRoles(u) => NoTenantNoMask(s, u);
    case Mints(u, m) =>
      NoTenantNoMask(s, u);
      assert m != {} ==> (u, m).0 in s.ledger.home && s.ledger.home[(u, m).0].Some?;
  }

  lemma StartIsIsolated(s: State)
    requires Initial(s) && EmptySystem(s.db)
    ensures Inv(s)
  {
  }

  lemma StepIsIsolated(states: seq<State>, run: seq<Label>, i: nat)
    requires Execution(states, run) && i < |run| && Sane(states[i]) && Inv(states[i])
    requires forall k | 0 <= k < |run| :: AllowedStep(states[k], run[k])
    ensures Inv(states[i + 1])
  {
    assert Step(states[i], run[i], states[i + 1]) && AllowedStep(states[i], run[i]);
    StepKeepsInv(states[i], run[i]);
  }

  lemma {:induction false} InvHolds(states: seq<State>, run: seq<Label>, i: nat)
    requires Execution(states, run) && i <= |run| && EmptySystem(states[0].db)
    requires forall k | 0 <= k < |run| :: AllowedStep(states[k], run[k])
    ensures Inv(states[i])
  {
    if i == 0 {
      StartIsIsolated(states[0]);
    } else {
      InvHolds(states, run, i - 1);
      AlwaysSane(states, run, i - 1);
      StepIsIsolated(states, run, i - 1);
    }
  }

  /** Every link of every reachable state stays inside one tenant, and no role is tenantless. */
  lemma TenantsStayIsolated(states: seq<State>, run: seq<Label>, i: nat)
    requires Execution(states, run) && i <= |run| && EmptySystem(states[0].db)
    requires forall k | 0 <= k < |run| :: AllowedStep(states[k], run[k])
    ensures Isolated(states[i].db) && EveryoneHasTenant(states[i].db)
  {
    InvHolds(states, run, i);
  }

  // The gate is needed: without it an account of no tenant can author a role of no tenant.
  lemma UngatedAccountAuthorsGlobalRole(db: Db, u: UserId, name: string, order: seq<nat>)
    requires u in db.users && !db.users[u].superuser && db.users[u].tenant.None?
    requires !RoleNameTaken(db, name, None)
    ensures var d := Decide(db, CreateRole(u, name, []), order);
            && d.Success? && d.value != []
            && d.value[0] == InsertRole(db.nextRole, Role(name, None, {}, {}))
  {
  }
}
