/**
 * Confinement: what non-superusers can ever produce.
 *
 * The frontier of a state is every role a non-superuser holds, and every role that can be
 * reached from those by following who-may-grant-what links. The delegable roles and
 * permissions are those the frontier's roles may grant. Whatever non-superusers do, in
 * whatever overlap and on however old a copy of a role, nobody gains anything but what was
 * delegable at the start.
 */
module Confinement {
  import opened Wrappers
  import opened Registry
  import opened Database
  import opened Delegation
  import opened Services
  import opened RbacRuns

  predicate HeldByNonSuperuser(db: Db, r: RoleId) {
    exists u :: u in db.users && !db.users[u].superuser && (u, r) in db.userRoles
  }

  ghost predicate ClosedFrontier(db: Db, roles: set<RoleId>) {
    && (forall r | r in db.roles && HeldByNonSuperuser(db, r) :: r in roles)
    && (forall l | l in db.grantRoles && l.0 in roles :: l.1 in roles)
  }

  // The least closed frontier.
  ghost function Frontier(db: Db): set<RoleId> {
    set r | r in db.roles && forall roles: set<RoleId> :: ClosedFrontier(db, roles) ==> r in roles
  }

  ghost function DelegableRoles(db: Db): set<RoleId> {
    set l | l in db.grantRoles && l.0 in Frontier(db) :: l.1
  }

  ghost function DelegablePerms(db: Db): set<PermId> {
    set l | l in db.grantPerms && l.0 in Frontier(db) :: l.1
  }

  lemma FrontierIsClosed(db: Db)
    requires Wf(db)
    ensures ClosedFrontier(db, Frontier(db))
  {
  }

  lemma FrontierIsLeast(db: Db, roles: set<RoleId>)
    requires ClosedFrontier(db, roles)
    ensures Frontier(db) <= roles
  {
  }

  // What a run started with: its tables, a closed frontier of them, and roles and
  // permissions that cover what the frontier may grant.
  datatype Bound = Bound(base: Db, roles: set<RoleId>, deleg: set<RoleId>, perms: set<PermId>)

  // In the frontier, or created since.
  predicate Reachable(b: Bound, r: RoleId) {
    r in b.roles || b.base.nextRole <= r
  }

  // Delegable, or created since.
  predicate Grantable(b: Bound, r: RoleId) {
    r in b.deleg || b.base.nextRole <= r
  }

  function Bits(b: Bound): Mask {
    RowBits(b.base, b.perms)
  }

  // What a role may ever carry, in its column or in a copy somebody loaded.
  function RoleBound(b: Bound, r: RoleId): Mask {
    (if r in b.base.roles then b.base.roles[r].mask else {}) + Bits(b)
  }

  ghost predicate IsBound(b: Bound) {
    && Wf(b.base) && Synced(b.base) && ClosedFrontier(b.base, b.roles)
    && (forall l | l in b.base.grantPerms && l.0 in b.roles :: l.1 in b.perms)
    && (forall l | l in b.base.grantRoles && l.0 in b.roles :: l.1 in b.deleg) && b.deleg <= b.roles
  }

  // The commits non-superusers can cause.
  predicate Confined(b: Bound, c: Commit) {
    match c
    case InsertUser(_, _, _, _, superuser) => !superuser
    case InsertRole(r, row) => b.base.nextRole <= r && row.mask <= Bits(b)
    case AddPermission(r, p, read) =>
      p in b.base.perms && BitOf(b.base.perms[p]) <= Bits(b) && read <= RoleBound(b, r)
    case RemovePermission(r, _, read) => read <= RoleBound(b, r)
    case AssignRole(r, _) => Grantable(b, r)
    case LinkRole(_, g) => Grantable(b, g)
    case LinkPermission(_, p) => p in b.perms
    case GrantPermission(_, p) => p in b.perms
    case InsertTenant(_, _, _) => false
    case SetCeiling(_, _, _) => false
    case InsertPermission(_, _, _) => false
    case CreateRootRole(_, _, _) => false
    case SyncRootRole(_, _) => false
    case _ => true
  }

  ghost predicate CatalogUnmoved(b: Bound, db: Db) {
    db.cat == b.base.cat && db.perms == b.base.perms && b.base.nextRole <= db.nextRole
  }

  ghost predicate LinksWithin(b: Bound, db: Db) {
    && (forall l | l in db.grantRoles && Reachable(b, l.0) :: Grantable(b, l.1))
    && (forall l | l in db.grantPerms && Reachable(b, l.0) :: l.1 in b.perms)
  }

  ghost predicate HoldingsWithin(b: Bound, db: Db) {
    && (forall l | l in db.userRoles :: l in b.base.userRoles || Grantable(b, l.1))
    && (forall l | l in db.userRoles && l.0 in db.users && !db.users[l.0].superuser :: Reachable(b, l.1))
    && (forall l | l in db.userPerms :: l in b.base.userPerms || l.1 in b.perms)
    && (forall l | l in b.base.userRoles :: l.0 in db.users)
  }

  ghost predicate MasksWithin(b: Bound, db: Db) {
    forall r | r in db.roles ::
      && db.roles[r].mask <= RoleBound(b, r)
      && (r in b.base.roles || b.base.nextRole <= r)
  }

  ghost predicate Within(b: Bound, db: Db) {
    CatalogUnmoved(b, db) && LinksWithin(b, db) && HoldingsWithin(b, db) && MasksWithin(b, db)
  }

  lemma CommitKeepsHoldings(b: Bound, db: Db, c: Commit)
    requires Wf(db) && b.deleg <= b.roles && HoldingsWithin(b, db) && Confined(b, c) && Accepts(db, c)
    ensures HoldingsWithin(b, Apply(db, c).value)
  {
  }

  lemma CommitKeepsLinks(b: Bound, db: Db, c: Commit)
    requires LinksWithin(b, db) && Confined(b, c) && Accepts(db, c)
    ensures LinksWithin(b, Apply(db, c).value)
  {
  }

  lemma CommitKeepsMasks(b: Bound, db: Db, c: Commit)
    requires CatalogUnmoved(b, db) && MasksWithin(b, db) && Confined(b, c) && Accepts(db, c)
    ensures CatalogUnmoved(b, Apply(db, c).value) && MasksWithin(b, Apply(db, c).value)
  {
  }

  lemma CommitKeepsWithin(b: Bound, db: Db, c: Commit)
    requires IsBound(b) && Wf(db) && Within(b, db) && Confined(b, c) && Accepts(db, c)
    ensures Within(b, Apply(db, c).value)
  {
    CommitKeepsHoldings(b, db, c);
    CommitKeepsLinks(b, db, c);
    CommitKeepsMasks(b, db, c);
  }

  // ------------------------------------------------------------------
  // Requests of non-superusers
  // ------------------------------------------------------------------

  // Anyone may register; every other request here comes from an account that is no superuser.
  predicate ByNonSuperuser(db: Db, req: Request) {
    !req.Seed? && (HasActor(req) && req.actor in db.users ==> !db.users[req.actor].superuser)
  }

  ghost predicate AllConfined(b: Bound, cs: seq<Commit>) {
    forall c | c in cs :: Confined(b, c)
  }

  lemma GrantsWithin(b: Bound, db: Db, actor: UserId)
    requires Within(b, db) && actor in db.users && !db.users[actor].superuser
    ensures forall r | r in GrantableRoles(db, actor) :: Grantable(b, r)
    ensures GrantablePerms(db, actor) <= b.perms
    ensures GrantableMask(db, actor) <= Bits(b)
  {
  }

  lemma SingleIsConfined(b: Bound, db: Db, req: Request, order: seq<nat>)
    requires Within(b, db) && ByNonSuperuser(db, req)
    requires SingleCommit(db, req).Some? && Decide(db, req, order).Success?
    ensures AllConfined(b, Decide(db, req, order).value)
  {
    SingleDecision(db, req, order);
    GrantsWithin(b, db, req.actor);
    var c := SingleCommit(db, req).value;
    assert Confined(b, c) by {
      match req
      case GiveRole(_, _, _) =>
      case GivePermission(_, _, _) =>
      case AddGrantableRole(_, _, _) =>
      case AddGrantablePermission(_, _, _) =>
      case _ =>
    }
  }

  lemma NoExcess(requested: Mask, allowed: Mask)
    requires requested - allowed == {}
    ensures requested <= allowed
  {
    assert forall x | x in requested :: x !in requested - allowed;
  }

  lemma CreateRoleIsConfined(b: Bound, db: Db, req: Request, order: seq<nat>)
    requires Within(b, db) && ByNonSuperuser(db, req) && req.CreateRole? && Decide(db, req, order).Success?
    ensures AllConfined(b, Decide(db, req, order).value)
  {
    GrantsWithin(b, db, req.actor);
    LinkEachIs(Arrange(RolesOf(db, req.actor), order), db.nextRole);
    NoExcess(BitsOf(db.cat, Closure(db.cat.implies, Elements(req.names))), GrantableMask(db, req.actor));
  }

  lemma RowsConfined(b: Bound, db: Db, names: set<string>)
    requires CatalogUnmoved(b, db) && Wf(db) && Synced(db) && names <= db.cat.bits.Keys
    requires BitsOf(db.cat, names) <= Bits(b)
    ensures forall p | p in RowsNamed(db, names) :: p in b.base.perms && BitOf(b.base.perms[p]) <= Bits(b)
  {
  }

  lemma ExtendRoleIsConfined(b: Bound, db: Db, req: Request, order: seq<nat>)
    requires Within(b, db) && Wf(db) && Synced(db)
    requires ByNonSuperuser(db, req) && req.ExtendRole? && Decide(db, req, order).Success?
    ensures AllConfined(b, Decide(db, req, order).value)
  {
    GrantsWithin(b, db, req.actor);
    var implied := ImpliedToAdd(db, req.role, req.perm);
    var names := {db.perms[req.perm].name} + implied;
    NoExcess(BitsOf(db.cat, names), GrantableMask(db, req.actor));
    RowsConfined(b, db, names);
    ExtendDecision(db, req.actor, req.role, req.perm, order);
    assert db.roles[req.role].mask <= RoleBound(b, req.role);
    AddsConfined(b, db, names, Decide(db, req, order).value);
  }

  lemma AddsConfined(b: Bound, db: Db, names: set<string>, cs: seq<Commit>)
    requires forall p | p in RowsNamed(db, names) :: p in b.base.perms && BitOf(b.base.perms[p]) <= Bits(b)
    requires forall c | c in cs :: c.AddPermission? && c.perm in RowsNamed(db, names) && c.read <= RoleBound(b, c.role)
    ensures AllConfined(b, cs)
  {
  }

  lemma DecisionIsConfined(b: Bound, db: Db, req: Request, order: seq<nat>)
    requires IsBound(b) && Within(b, db) && Wf(db) && Synced(db)
    requires ByNonSuperuser(db, req) && Decide(db, req, order).Success?
    ensures AllConfined(b, Decide(db, req, order).value)
  {
    match req
    case CreateRole(_, _, _) => CreateRoleIsConfined(b, db, req, order);
    case ExtendRole(_, _, _) => ExtendRoleIsConfined(b, db, req, order);
    case Register(_, _, _) => OthersAreConfined(b, db, req, order);
    case Seed(_, _, _) => OthersAreConfined(b, db, req, order);
    case CreateUser(_, _, _, _) => OthersAreConfined(b, db, req, order);
    case CreateTenant(_, _, _, _, _, _, _) => OthersAreConfined(b, db, req, order);
    case UpdateCeiling(_, _, _) => OthersAreConfined(b, db, req, order);
    case _ => SingleIsConfined(b, db, req, order);
  }

  // New accounts are no superusers, and tenant requests are refused.
  lemma OthersAreConfined(b: Bound, db: Db, req: Request, order: seq<nat>)
    requires ByNonSuperuser(db, req) && Decide(db, req, order).Success?
    requires req.Register? || req.Seed? || req.CreateUser? || req.CreateTenant? || req.UpdateCeiling?
    ensures AllConfined(b, Decide(db, req, order).value)
  {
  }

  // A request that reloads a role reloads a mask within its bound.
  lemma ReloadedConfined(b: Bound, db: Db, cs: seq<Commit>)
    requires MasksWithin(b, db) && AllConfined(b, cs)
    ensures AllConfined(b, Reloaded(db, cs))
  {
    forall c | c in Reloaded(db, cs) ensures Confined(b, c) {
      var i :| 0 <= i < |cs| && c == Reload(db, cs[i]);
      assert Confined(b, cs[i]);
    }
  }

  // ------------------------------------------------------------------
  // Runs
  // ------------------------------------------------------------------

  predicate NonSuperuserStep(s: RbacRuns.State, l: Label) {
    l.Starts? ==> ByNonSuperuser(s.db, l.req)
  }

  ghost predicate StateWithin(b: Bound, s: RbacRuns.State) {
    Within(b, s.db) && forall i | 0 <= i < |s.inflight| :: AllConfined(b, s.inflight[i])
  }

  lemma StepKeepsWithin(b: Bound, s: RbacRuns.State, l: Label)
    requires IsBound(b) && Sane(s) && StateWithin(b, s) && Enabled(s, l) && NonSuperuserStep(s, l)
    ensures StateWithin(b, Next(s, l))
  {
    match l
    case Starts(req, order) => StartKeepsWithin(b, s, req, order);
    case Commits(i) =>
      var c := s.inflight[i][0];
      assert AllConfined(b, s.inflight[i]) && Confined(b, c);
      if Accepts(s.db, c) {
        CommitKeepsWithin(b, s.db, c);
        ReloadedConfined(b, Apply(s.db, c).value, s.inflight[i][1..]);
      }
    case _ =>
  }

  lemma StartKeepsWithin(b: Bound, s: RbacRuns.State, req: Request, order: seq<nat>)
    requires IsBound(b) && Sane(s) && StateWithin(b, s) && ByNonSuperuser(s.db, req)
    ensures StateWithin(b, Start(s, req, order))
  {
    if Decide(s.db, req, order).Success? {
      DecisionIsConfined(b, s.db, req, order);
      DrawStaysWithin(b, s.db, Start(s, req, order).db.nextRole);
    }
  }

  lemma DrawStaysWithin(b: Bound, db: Db, next: RoleId)
    requires Within(b, db) && db.nextRole <= next
    ensures Within(b, db.(nextRole := next))
  {
  }

  lemma StartIsWithin(b: Bound, s: RbacRuns.State)
    requires IsBound(b) && Initial(s) && b.base == s.db
    ensures StateWithin(b, s)
  {
  }

  lemma StepStaysWithin(b: Bound, states: seq<RbacRuns.State>, run: seq<Label>, i: nat)
    requires IsBound(b) && Execution(states, run) && i < |run| && Sane(states[i]) && StateWithin(b, states[i])
    requires forall k | 0 <= k < |run| :: NonSuperuserStep(states[k], run[k])
    ensures StateWithin(b, states[i + 1])
  {
    assert Step(states[i], run[i], states[i + 1]) && NonSuperuserStep(states[i], run[i]);
    StepKeepsWithin(b, states[i], run[i]);
  }

  lemma {:induction false} RunStaysWithin(b: Bound, states: seq<RbacRuns.State>, run: seq<Label>, i: nat)
    requires IsBound(b) && Execution(states, run) && i <= |run| && b.base == states[0].db
    requires forall k | 0 <= k < |run| :: NonSuperuserStep(states[k], run[k])
    ensures StateWithin(b, states[i])
  {
    if i == 0 {
      StartIsWithin(b, states[0]);
    } else {
      AlwaysSane(states, run, i - 1);
      RunStaysWithin(b, states, run, i - 1);
      StepStaysWithin(b, states, run, i - 1);
    }
  }

  // The bits some roles carry.
  function RoleBits(db: Db, roles: set<RoleId>): Mask {
    set r, bit | r in roles && r in db.roles && bit in db.roles[r].mask :: bit
  }

  lemma MaskWithin(b: Bound, db: Db, u: UserId)
    requires IsBound(b) && Wf(db) && Within(b, db)
    ensures EffectiveMask(db, u) <= EffectiveMask(b.base, u) + RoleBits(b.base, b.deleg) + Bits(b)
  {
  }

  lemma FrontierWithin(b: Bound, db: Db)
    requires IsBound(b) && Wf(db) && Within(b, db)
    ensures forall r | r in DelegableRoles(db) :: Grantable(b, r)
    ensures DelegablePerms(db) <= b.perms
  {
    var roles := set r | r in db.roles && Reachable(b, r);
    assert ClosedFrontier(db, roles) by {
      forall r | r in db.roles && HeldByNonSuperuser(db, r) ensures r in roles {
        var u :| u in db.users && !db.users[u].superuser && (u, r) in db.userRoles;
        assert Reachable(b, (u, r).1);
      }
    }
    FrontierIsLeast(db, roles);
  }

  /**
   * Confinement over whole runs of non-superuser steps: the delegable permissions never
   * grow, the delegable roles grow only by roles created in the run, and every user's
   * effective mask stays within what they started with, what the initially delegable roles
   * started with, and the initially delegable bits.
   */
  lemma NonSuperusersAreConfined(states: seq<RbacRuns.State>, run: seq<Label>, u: UserId)
    requires Execution(states, run)
    requires forall k | 0 <= k < |run| :: NonSuperuserStep(states[k], run[k])
    ensures var start, end := states[0].db, states[|run|].db;
            && DelegablePerms(end) <= DelegablePerms(start)
            && (forall r | r in DelegableRoles(end) :: r in DelegableRoles(start) || start.nextRole <= r)
            && EffectiveMask(end, u) <=
               EffectiveMask(start, u) + RoleBits(start, DelegableRoles(start)) + RowBits(start, DelegablePerms(start))
  {
    var start := states[0].db;
    AlwaysSane(states, run, 0);
    FrontierIsClosed(start);
    var b := Bound(start, Frontier(start), DelegableRoles(start), DelegablePerms(start));
    RunStaysWithin(b, states, run, |run|);
    AlwaysSane(states, run, |run|);
    FrontierWithin(b, states[|run|].db);
    MaskWithin(b, states[|run|].db, u);
  }
}
