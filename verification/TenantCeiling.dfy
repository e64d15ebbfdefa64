/**
 * The tenant ceiling: as long as superusers do not add permissions to tenant-owned roles
 * themselves, every tenant-owned role stays within the union of the ceilings its tenant has
 * ever had, and no such ceiling holds a superuser-only permission.
 */
module TenantCeiling {
  import opened Wrappers
  import opened Registry
  import opened Database
  import opened Delegation
  import opened Services
  import opened RbacRuns

  function Ever(ledger: Ledger, tenant: Option<TenantId>): Mask {
    if tenant.Some? && tenant.value in ledger.ever then ledger.ever[tenant.value] else {}
  }

  // Bits may go to a role of this tenant: anything to a global role.
  predicate MayHold(ledger: Ledger, tenant: Option<TenantId>, bits: Mask) {
    tenant.Some? ==> bits <= Ever(ledger, tenant)
  }

  predicate Under(db: Db, ledger: Ledger, c: Commit) {
    match c
    case InsertTenant(_, _, allowed) => allowed <= TenantRoleMask(db.cat)
    case SetCeiling(_, allowed, _) => allowed <= TenantRoleMask(db.cat)
    case InsertRole(_, row) => MayHold(ledger, row.tenant, row.mask)
    case CreateRootRole(_, t, allowed) => RootMask(db, allowed) <= Ever(ledger, Some(t))
    case SyncRootRole(t, allowed) => RootMask(db, allowed) <= Ever(ledger, Some(t))
    case AddPermission(r, p, read) =>
      r in ledger.owner && p in db.perms && MayHold(ledger, ledger.owner[r], read + BitOf(db.perms[p]))
    case RemovePermission(r, _, read) => r in ledger.owner && MayHold(ledger, ledger.owner[r], read)
    case _ => true
  }

  // Each commit of a request, judged once the ceilings set before it are recorded.
  ghost predicate AllUnder(db: Db, ledger: Ledger, cs: seq<Commit>)
    decreases |cs|
  {
    cs != [] ==> Under(db, ledger, cs[0]) && AllUnder(db, Record(ledger, cs[0]), cs[1..])
  }

  // The ceiling property itself.
  ghost predicate UnderCeilings(db: Db, ledger: Ledger) {
    && (forall r | r in db.roles && db.roles[r].tenant.Some? :: db.roles[r].mask <= Ever(ledger, db.roles[r].tenant))
    && (forall t | t in ledger.ever :: ledger.ever[t] <= TenantRoleMask(db.cat))
  }

  ghost predicate Inv(s: State) {
    UnderCeilings(s.db, s.ledger) && forall i | 0 <= i < |s.inflight| :: AllUnder(s.db, s.ledger, s.inflight[i])
  }

  lemma CommitKeepsCeilings(db: Db, ledger: Ledger, c: Commit)
    requires Wf(db) && RowsKnown(db, ledger) && Known(db, ledger, c)
    requires UnderCeilings(db, ledger) && Accepts(db, c) && Under(db, ledger, c)
    ensures UnderCeilings(Apply(db, c).value, Record(ledger, c))
  {
    var next := Apply(db, c).value;
    RecordExtends(ledger, c);
    forall r | r in next.roles && next.roles[r].tenant.Some?
      ensures next.roles[r].mask <= Ever(ledger, next.roles[r].tenant)
    {
      CommitKeepsCeiling(db, ledger, c, r);
    }
  }

  lemma CommitKeepsCeiling(db: Db, ledger: Ledger, c: Commit, r: RoleId)
    requires RowsKnown(db, ledger) && Known(db, ledger, c) && UnderCeilings(db, ledger)
    requires Accepts(db, c) && Under(db, ledger, c)
    requires r in Apply(db, c).value.roles && Apply(db, c).value.roles[r].tenant.Some?
    ensures var next := Apply(db, c).value; next.roles[r].mask <= Ever(ledger, next.roles[r].tenant)
  {
  }

  lemma {:induction false} UnderOutlives(db: Db, next: Db, a: Ledger, b: Ledger, cs: seq<Commit>)
    requires AllUnder(db, a, cs) && Extends(a, b)
    requires next.cat == db.cat && forall p | p in db.perms :: p in next.perms && next.perms[p] == db.perms[p]
    ensures AllUnder(next, b, cs)
    decreases |cs|
  {
    if cs != [] {
      assert Extends(Record(a, cs[0]), Record(b, cs[0]));
      UnderOutlives(db, next, Record(a, cs[0]), Record(b, cs[0]), cs[1..]);
    }
  }

  // A request that reloads a role reloads a mask under the ceilings.
  lemma {:induction false} ReloadedUnder(db: Db, base: Ledger, ledger: Ledger, cs: seq<Commit>)
    requires RowsKnown(db, base) && UnderCeilings(db, base) && Extends(base, ledger) && AllUnder(db, ledger, cs)
    ensures AllUnder(db, ledger, Reloaded(db, cs))
    decreases |cs|
  {
    if cs != [] {
      RecordExtends(ledger, cs[0]);
      ReloadedUnder(db, base, Record(ledger, cs[0]), cs[1..]);
      assert Reloaded(db, cs)[1..] == Reloaded(db, cs[1..]);
      assert Under(db, ledger, Reload(db, cs[0]));
    }
  }

  // ------------------------------------------------------------------
  // Requests
  // ------------------------------------------------------------------

  predicate SuperuserLeavesTenantRoles(db: Db, req: Request) {
    req.ExtendRole? && req.actor in db.users && db.users[req.actor].superuser && req.role in db.roles ==>
      db.roles[req.role].tenant.None?
  }

  // Commits that record no ceiling can be judged one by one.
  lemma {:induction false} PlainUnder(db: Db, ledger: Ledger, cs: seq<Commit>)
    requires forall c | c in cs :: Under(db, ledger, c) && !c.InsertTenant? && !c.SetCeiling?
    ensures AllUnder(db, ledger, cs)
    decreases |cs|
  {
    if cs != [] {
      PlainUnder(db, ledger, cs[1..]);
    }
  }

  lemma GrantableUnderCeiling(s: State, actor: UserId, requested: Mask)
    requires Sane(s) && Inv(s) && actor in s.db.users && requested - GrantableMask(s.db, actor) == {}
    ensures MayHold(s.ledger, s.db.users[actor].tenant, requested)
  {
    assert forall x | x in requested :: x !in requested - GrantableMask(s.db, actor);
    if s.db.users[actor].tenant.Some? {
      assert TenantExists(s.db, s.db.users[actor].tenant);
    }
  }

  lemma CreateRoleIsUnder(s: State, req: Request, order: seq<nat>)
    requires Sane(s) && Inv(s) && req.CreateRole? && Decide(s.db, req, order).Success?
    ensures AllUnder(s.db, Reserve(s.ledger, s.db, req), Decide(s.db, req, order).value)
  {
    var requested := BitsOf(s.db.cat, Closure(s.db.cat.implies, Elements(req.names)));
    if !s.db.users[req.actor].superuser {
      GrantableUnderCeiling(s, req.actor, requested);
    }
    LinkEachIs(Arrange(RolesOf(s.db, req.actor), order), s.db.nextRole);
    PlainUnder(s.db, Reserve(s.ledger, s.db, req), Decide(s.db, req, order).value);
  }

  lemma RowsUnder(db: Db, ledger: Ledger, tenant: Option<TenantId>, names: set<string>)
    requires Wf(db) && Synced(db) && names <= db.cat.bits.Keys && MayHold(ledger, tenant, BitsOf(db.cat, names))
    ensures forall p | p in RowsNamed(db, names) :: MayHold(ledger, tenant, BitOf(db.perms[p]))
  {
  }

  lemma ExtendRoleIsUnder(s: State, req: Request, order: seq<nat>)
    requires Sane(s) && Inv(s) && req.ExtendRole? && Decide(s.db, req, order).Success?
    requires SuperuserLeavesTenantRoles(s.db, req)
    ensures AllUnder(s.db, s.ledger, Decide(s.db, req, order).value)
  {
    var implied := ImpliedToAdd(s.db, req.role, req.perm);
    var names := {s.db.perms[req.perm].name} + implied;
    var tenant := s.db.roles[req.role].tenant;
    if tenant.Some? {
      GrantableUnderCeiling(s, req.actor, BitsOf(s.db.cat, names));
      RowsUnder(s.db, s.ledger, tenant, names);
    }
    ExtendDecision(s.db, req.actor, req.role, req.perm, order);
    AddsUnder(s.db, s.ledger, req.role, names, Decide(s.db, req, order).value);
  }

  lemma AddsUnder(db: Db, ledger: Ledger, role: RoleId, names: set<string>, cs: seq<Commit>)
    requires role in ledger.owner
    requires forall p | p in RowsNamed(db, names) :: MayHold(ledger, ledger.owner[role], BitOf(db.perms[p]))
    requires forall c | c in cs ::
               && c.AddPermission? && c.role == role && c.perm in RowsNamed(db, names)
               && MayHold(ledger, ledger.owner[role], c.read)
    ensures AllUnder(db, ledger, cs)
  {
    PlainUnder(db, ledger, cs);
  }

  lemma CeilingIsTenantMask(cat: Catalog, allowed: Option<seq<string>>)
    requires CeilingOf(cat, allowed).Success?
    ensures CeilingOf(cat, allowed).value <= TenantRoleMask(cat)
  {
  }

  // The first commit sets a ceiling, and the rest write no mask beyond it.
  lemma CeilingFirst(db: Db, ledger: Ledger, tenant: TenantId, ceiling: Mask, cs: seq<Commit>)
    requires cs != [] && ceiling <= TenantRoleMask(db.cat)
    requires (cs[0].InsertTenant? || cs[0].SetCeiling?) && cs[0].tenant == tenant && cs[0].allowed == ceiling
    requires forall c | c in cs[1..] ::
               || ((c.CreateRootRole? || c.SyncRootRole?) && c.tenant == tenant && c.allowed == ceiling)
               || c.InsertUser? || c.AssignRole?
    ensures AllUnder(db, ledger, cs)
  {
    var widened := Record(ledger, cs[0]);
    assert ceiling <= Ever(widened, Some(tenant)) && RootMask(db, ceiling) <= ceiling;
    PlainUnder(db, widened, cs[1..]);
  }

  lemma CreateTenantIsUnder(db: Db, ledger: Ledger, req: Request, order: seq<nat>)
    requires req.CreateTenant? && Decide(db, req, order).Success?
    ensures AllUnder(db, ledger, Decide(db, req, order).value)
  {
    CeilingIsTenantMask(db.cat, req.allowed);
    CeilingFirst(db, ledger, req.tenant, CeilingOf(db.cat, req.allowed).value, Decide(db, req, order).value);
  }

  lemma UpdateCeilingIsUnder(db: Db, ledger: Ledger, req: Request, order: seq<nat>)
    requires req.UpdateCeiling? && Decide(db, req, order).Success?
    ensures AllUnder(db, ledger, Decide(db, req, order).value)
  {
    CeilingIsTenantMask(db.cat, Some(req.names));
    CeilingFirst(db, ledger, req.tenant, CeilingOf(db.cat, Some(req.names)).value, Decide(db, req, order).value);
  }

  lemma SingleIsUnder(db: Db, ledger: Ledger, req: Request, order: seq<nat>)
    requires RowsKnown(db, ledger) && UnderCeilings(db, ledger)
    requires SingleCommit(db, req).Some? && Decide(db, req, order).Success?
    ensures AllUnder(db, Reserve(ledger, db, req), Decide(db, req, order).value)
  {
    SingleDecision(db, req, order);
    var c := SingleCommit(db, req).value;
    SingleCommitUnder(db, ledger, req);
    PlainUnder(db, ledger, [c]);
  }

  lemma SingleCommitUnder(db: Db, ledger: Ledger, req: Request)
    requires RowsKnown(db, ledger) && UnderCeilings(db, ledger) && SingleCommit(db, req).Some?
    ensures Under(db, ledger, SingleCommit(db, req).value) && Reserve(ledger, db, req) == ledger
    ensures !SingleCommit(db, req).value.InsertTenant? && !SingleCommit(db, req).value.SetCeiling?
  {
  }

  lemma NewUserIsUnder(s: State, req: Request, order: seq<nat>)
    requires (req.Register? || req.Seed? || req.CreateUser?) && Decide(s.db, req, order).Success?
    ensures AllUnder(s.db, Reserve(s.ledger, s.db, req), Decide(s.db, req, order).value)
  {
  }

  lemma DecisionIsUnder(s: State, req: Request, order: seq<nat>)
    requires Sane(s) && Inv(s) && SuperuserLeavesTenantRoles(s.db, req) && Decide(s.db, req, order).Success?
    ensures AllUnder(s.db, Reserve(s.ledger, s.db, req), Decide(s.db, req, order).value)
  {
    match req
    case Register(_, _, _) => NewUserIsUnder(s, req, order);
    case Seed(_, _, _) => NewUserIsUnder(s, req, order);
    case CreateUser(_, _, _, _) => NewUserIsUnder(s, req, order);
    case CreateRole(_, _, _) => CreateRoleIsUnder(s, req, order);
    case ExtendRole(_, _, _) => ExtendRoleIsUnder(s, req, order);
    case CreateTenant(_, _, _, _, _, _, _) => CreateTenantIsUnder(s.db, Reserve(s.ledger, s.db, req), req, order);
    case UpdateCeiling(_, _, _) => UpdateCeilingIsUnder(s.db, s.ledger, req, order);
    case _ => SingleIsUnder(s.db, s.ledger, req, order);
  }

  // ------------------------------------------------------------------
  // Runs
  // ------------------------------------------------------------------

  lemma StartKeepsInv(s: State, req: Request, order: seq<nat>)
    requires Sane(s) && Inv(s) && FreshIds(s.ledger, req) && SuperuserLeavesTenantRoles(s.db, req)
    ensures Inv(Start(s, req, order))
  {
    if Decide(s.db, req, order).Success? {
      var t := Start(s, req, order);
      DecisionIsUnder(s, req, order);
      ReserveExtends(s.db, s.ledger, req);
      forall i | 0 <= i < |t.inflight| ensures AllUnder(t.db, t.ledger, t.inflight[i]) {
        UnderOutlives(s.db, t.db, if i < |s.inflight| then s.ledger else t.ledger, t.ledger, t.inflight[i]);
      }
    }
  }

  lemma CommitKeepsInv(s: State, i: nat)
    requires Sane(s) && Inv(s) && i < |s.inflight| && s.inflight[i] != []
    ensures Inv(CommitNext(s, i))
  {
    var c, t := s.inflight[i][0], CommitNext(s, i);
    assert AllKnown(s.db, s.ledger, s.inflight[i]) && Known(s.db, s.ledger, c);
    assert AllUnder(s.db, s.ledger, s.inflight[i]);
    if Accepts(s.db, c) {
      CommitKeepsCeilings(s.db, s.ledger, c);
      RowsAreMonotone(s.db, c);
      RecordExtends(s.ledger, c);
      forall j | 0 <= j < |t.inflight| ensures AllUnder(t.db, t.ledger, t.inflight[j]) {
        if j == i {
          UnderOutlives(s.db, t.db, t.ledger, t.ledger, s.inflight[i][1..]);
          ApplyKeepsRowsKnown(s.db, s.ledger, c);
          ReloadedUnder(t.db, t.ledger, t.ledger, s.inflight[i][1..]);
        } else {
          UnderOutlives(s.db, t.db, s.ledger, t.ledger, t.inflight[j]);
        }
      }
    }
  }

  lemma StepKeepsInv(s: State, l: Label)
    requires Sane(s) && Inv(s) && Enabled(s, l) && (l.Starts? ==> SuperuserLeavesTenantRoles(s.db, l.req))
    ensures Inv(Next(s, l))
  {
    match l
    case Starts(req, order) => StartKeepsInv(s, req, order);
    case Commits(i) => CommitKeepsInv(s, i);
    case _ =>
  }

  lemma StartIsUnder(s: State)
    requires Initial(s) && UnderCeilings(s.db, s.ledger)
    ensures Inv(s)
  {
  }

  lemma StepIsUnder(s: State, l: Label, t: State)
    requires Sane(s) && Inv(s) && Step(s, l, t) && (l.Starts? ==> SuperuserLeavesTenantRoles(s.db, l.req))
    ensures Inv(t)
  {
    StepKeepsInv(s, l);
  }

  lemma {:induction false} InvHolds(states: seq<State>, run: seq<Label>, i: nat)
    requires Execution(states, run) && i <= |run| && UnderCeilings(states[0].db, states[0].ledger)
    requires forall k | 0 <= k < |run| && run[k].Starts? :: SuperuserLeavesTenantRoles(states[k].db, run[k].req)
    ensures Inv(states[i])
  {
    if i == 0 {
      StartIsUnder(states[0]);
    } else {
      InvHolds(states, run, i - 1);
      AlwaysSane(states, run, i - 1);
      StepIsUnder(states[i - 1], run[i - 1], states[i]);
    }
  }

  /**
   * The ceiling, in every state of every run that starts under its ceilings, an empty
   * system among them: no tenant-owned role holds a bit outside every ceiling its tenant
   * has had, and none holds the bit of a superuser-only permission.
   */
  lemma RolesStayUnderCeilings(states: seq<State>, run: seq<Label>, i: nat)
    requires Execution(states, run) && i <= |run| && UnderCeilings(states[0].db, states[0].ledger)
    requires forall k | 0 <= k < |run| && run[k].Starts? :: SuperuserLeavesTenantRoles(states[k].db, run[k].req)
    ensures UnderCeilings(states[i].db, states[i].ledger)
  {
    InvHolds(states, run, i);
  }

  lemma NoSuperuserOnlyBit(db: Db, ledger: Ledger, r: RoleId, name: string)
    requires Sound(db.cat) && UnderCeilings(db, ledger) && r in db.roles && db.roles[r].tenant.Some?
    requires name in db.cat.superuserOnly && name in db.cat.bits
    ensures db.cat.bits[name] !in db.roles[r].mask
  {
  }
}
