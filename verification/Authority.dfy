/**
 * Authority over runs: everything that changes was asked for, by an account that could ask
 * for it when the request was decided; and no request of a tenant's account changes what
 * belongs to another tenant.
 */
module Authority {
  import opened Wrappers
  import opened Registry
  import opened Database
  import opened Delegation
  import opened Services
  import opened RbacRuns
  import opened TableHistory
  import opened RequestLaws

  // ------------------------------------------------------------------
  // Where commits come from
  // ------------------------------------------------------------------

  // Reloading a role changes nothing else about an edit.
  function Unread(c: Commit): Commit {
    match c
    case AddPermission(r, p, _) => AddPermission(r, p, {})
    case _ => c
  }

  ghost predicate Decides(db: Db, l: Label, c: Commit) {
    && l.Starts? && Decide(db, l.req, l.order).Success?
    && exists d :: d in Decide(db, l.req, l.order).value && Unread(d) == Unread(c)
  }

  lemma InFlightBefore(s: State, l: Label, i: nat, c: Commit)
    requires Enabled(s, l) && i < |Next(s, l).inflight| && c in Next(s, l).inflight[i]
    ensures Decides(s.db, l, c)
            || (i < |s.inflight| && exists d :: d in s.inflight[i] && Unread(d) == Unread(c))
  {
    match l
    case Starts(req, order) =>
    case Commits(j) =>
      if i == j {
        var tail := s.inflight[i][1..];
        assert forall d | d in tail :: d in s.inflight[i];
        if c !in tail {
          var next := Apply(s.db, s.inflight[i][0]).value;
          var k :| 0 <= k < |tail| && c == Reload(next, tail[k]);
          assert tail[k] in tail;
        }
      }
    case _ =>
  }

  /** Every commit in flight was decided by some request, up to the mask it was reloaded with. */
  lemma {:induction false} CommitsWereDecided(states: seq<State>, run: seq<Label>, n: nat, i: nat, c: Commit)
    requires Execution(states, run) && n <= |run| && i < |states[n].inflight| && c in states[n].inflight[i]
    ensures exists k :: 0 <= k < n && Decides(states[k].db, run[k], c)
  {
    if n != 0 {
      assert Step(states[n - 1], run[n - 1], states[n]);
      InFlightBefore(states[n - 1], run[n - 1], i, c);
      if !Decides(states[n - 1].db, run[n - 1], c) {
        var d :| d in states[n - 1].inflight[i] && Unread(d) == Unread(c);
        CommitsWereDecided(states, run, n - 1, i, d);
        var k :| 0 <= k < n - 1 && Decides(states[k].db, run[k], d);
        assert Decides(states[k].db, run[k], c);
      }
    }
  }

  // ------------------------------------------------------------------
  // What a request is about
  // ------------------------------------------------------------------

  // A link, a row or a column of the tables.
  datatype Item = OfFact(fact: Fact) | OfColumn(column: Column)

  function Shows(db: Db, item: Item): Cell {
    match item
    case OfFact(f) => Flag(True(db, f))
    case OfColumn(column) => CellOf(db, column)
  }

  predicate Creates(db: Db, req: Request, r: RoleId) {
    (req.CreateRole? || req.CreateTenant?) && r == db.nextRole
  }

  predicate Drops(req: Request, r: RoleId) {
    req.DropRole? && req.role == r
  }

  predicate Opens(req: Request, u: UserId) {
    || ((req.Register? || req.Seed? || req.CreateUser?) && req.user == u)
    || (req.CreateTenant? && req.admin == u)
  }

  // The names a request adds to a role: what was asked for and what that implies.
  ghost predicate AddsName(db: Db, req: Request, p: PermId) {
    match req
    case CreateRole(_, _, names) =>
      p in db.perms && db.perms[p].name in Closure(db.cat.implies, Elements(names))
    case ExtendRole(_, role, perm) =>
      && p in db.perms && role in db.roles && perm in db.perms
      && db.perms[p].name in {db.perms[perm].name} + ImpliedToAdd(db, role, perm)
    case _ => req.CreateTenant?
  }

  // The request asks for the fact to become `b`, or brings it about: dropping a role ends
  // every link of it, a new role is linked to its author's roles, and a ceiling is mirrored.
  ghost predicate AboutFact(db: Db, req: Request, f: Fact, b: bool) {
    || AsksFact(req) == Some((f, b))
    || match f
       case HoldsRole(u, r) => if b then req.CreateTenant? && Creates(db, req, r) && req.admin == u else Drops(req, r)
       case HoldsPermission(_, _) => false
       case MayGrantRole(r, g) =>
         if b then req.CreateRole? && Creates(db, req, g) && (req.actor, r) in db.userRoles
         else Drops(req, r) || Drops(req, g)
       case MayGrantPermission(r, _) =>
         req.UpdateCeiling? || if b then req.CreateTenant? && Creates(db, req, r) else Drops(req, r)
       case CarriesPermission(r, p) =>
         || req.UpdateCeiling?
         || if b then AddsName(db, req, p) && (Creates(db, req, r) || (req.ExtendRole? && req.role == r)) else Drops(req, r)
       case IsRole(r) => b && Creates(db, req, r)
  }

  ghost predicate AboutColumn(db: Db, req: Request, column: Column) {
    match column
    case Account(u) => Opens(req, u)
    case UserActive(u) => Opens(req, u) || (req.ActivateUser? && req.target == u)
    case RoleName(r) => Creates(db, req, r) || Drops(req, r) || (req.UpdateRole? && req.role == r)
    case RoleTenant(r) => Creates(db, req, r) || Drops(req, r)
    case CachedMask(r) =>
      || Creates(db, req, r) || Drops(req, r) || req.UpdateCeiling?
      || ((req.ExtendRole? || req.ReduceRole?) && req.role == r)
    case Ceiling(t) => (req.CreateTenant? || req.UpdateCeiling?) && req.tenant == t
    case TenantActive(t) => (req.CreateTenant? || req.ActivateTenant?) && req.tenant == t
    case TenantName(t) => req.CreateTenant? && req.tenant == t
    case PermissionRow(_) => false
  }

  ghost predicate About(db: Db, req: Request, item: Item, after: Cell) {
    match item
    case OfFact(f) => AboutFact(db, req, f, after == Flag(true))
    case OfColumn(column) => AboutColumn(db, req, column)
  }

  // ------------------------------------------------------------------
  // A commit does what its request is about
  // ------------------------------------------------------------------

  ghost predicate Serves(db: Db, req: Request, d: Commit) {
    match req
    case Register(u, _, _) => d.InsertUser? && d.user == u
    case Seed(u, _, _) => d.InsertUser? && d.user == u
    case CreateUser(_, u, _, _) => d.InsertUser? && d.user == u
    case CreateRole(a, _, names) =>
      || (d.InsertRole? && d.role == db.nextRole
          && d.row.perms == RowsNamed(db, Closure(db.cat.implies, Elements(names))))
      || (d.LinkRole? && d.grantable == db.nextRole && (a, d.role) in db.userRoles)
    case ExtendRole(_, role, perm) =>
      && d.AddPermission? && d.role == role && role in db.roles && perm in db.perms
      && d.perm in RowsNamed(db, {db.perms[perm].name} + ImpliedToAdd(db, role, perm))
    case CreateTenant(_, t, _, admin, _, _, _) =>
      || (d.InsertTenant? && d.tenant == t) || (d.CreateRootRole? && d.role == db.nextRole && d.tenant == t)
      || (d.InsertUser? && d.user == admin) || d == AssignRole(db.nextRole, admin)
    case UpdateCeiling(_, t, _) => (d.SetCeiling? || d.SyncRootRole?) && d.tenant == t
    case _ => Some(d) == SingleCommit(db, req)
  }

  lemma DecisionServes(db: Db, req: Request, order: seq<nat>, d: Commit)
    requires Decide(db, req, order).Success? && d in Decide(db, req, order).value
    ensures Serves(db, req, d)
  {
    if SingleCommit(db, req).Some? {
      SingleDecision(db, req, order);
    } else if req.CreateRole? {
      LinkEachIs(Arrange(RolesOf(db, req.actor), order), db.nextRole);
    } else if req.ExtendRole? {
      ExtendDecision(db, req.actor, req.role, req.perm, order);
    } else {
      OtherDecisionServes(db, req, order, d);
    }
  }

  lemma OtherDecisionServes(db: Db, req: Request, order: seq<nat>, d: Commit)
    requires Decide(db, req, order).Success? && d in Decide(db, req, order).value
    requires SingleCommit(db, req).None? && !req.CreateRole? && !req.ExtendRole?
    ensures Serves(db, req, d)
  {
  }

  lemma UnreadAlike(db: Db, c: Commit, d: Commit, f: Fact)
    requires Unread(c) == Unread(d)
    ensures Accepts(db, c) <==> Accepts(db, d)
    ensures Says(db, c, f) == Says(db, d, f)
  {
  }

  // The commit gives the fact another truth value.
  ghost predicate Turns(db: Db, c: Commit, f: Fact) {
    Accepts(db, c) && Says(db, c, f) == Some(!True(db, f))
  }

  // The request each kind of commit about links and rows comes from.
  ghost predicate AskedFor(was: Db, req: Request, d: Commit) {
    match d
    case AssignRole(r, u) =>
      (req.GiveRole? && req.role == r && req.target == u) || (req.CreateTenant? && r == was.nextRole && req.admin == u)
    case RemoveRole(r, u) => req.TakeRole? && req.role == r && req.target == u
    case GrantPermission(u, p) => req.GivePermission? && req.target == u && req.perm == p
    case RevokePermission(u, p) => req.TakePermission? && req.target == u && req.perm == p
    case DeleteRole(r) => Drops(req, r)
    case LinkRole(r, g) =>
      || (req.AddGrantableRole? && req.role == r && req.grantable == g)
      || (req.CreateRole? && g == was.nextRole && (req.actor, r) in was.userRoles)
    case UnlinkRole(r, g) => req.RemoveGrantableRole? && req.role == r && req.grantable == g
    case LinkPermission(r, p) => req.AddGrantablePermission? && req.role == r && req.perm == p
    case UnlinkPermission(r, p) => req.RemoveGrantablePermission? && req.role == r && req.perm == p
    case InsertRole(r, row) =>
      && req.CreateRole? && r == was.nextRole
      && row.perms == RowsNamed(was, Closure(was.cat.implies, Elements(req.names)))
    case CreateRootRole(r, _, _) => req.CreateTenant? && r == was.nextRole
    case SyncRootRole(_, _) => req.UpdateCeiling?
    case AddPermission(r, p, _) => req.ExtendRole? && req.role == r && AddsName(was, req, p)
    case RemovePermission(r, p, _) => req.ReduceRole? && req.role == r && req.perm == p
    case _ => true
  }

  lemma ServedIsAskedFor(was: Db, req: Request, d: Commit)
    requires Serves(was, req, d)
    ensures AskedFor(was, req, d)
  {
  }

  lemma RoleHeldServed(was: Db, now: Db, req: Request, d: Commit, f: Fact)
    requires AskedFor(was, req, d) && Turns(now, d, f) && f.HoldsRole?
    ensures AboutFact(was, req, f, !True(now, f))
  {
  }

  lemma PermissionHeldServed(was: Db, now: Db, req: Request, d: Commit, f: Fact)
    requires AskedFor(was, req, d) && Turns(now, d, f) && f.HoldsPermission?
    ensures AboutFact(was, req, f, !True(now, f))
  {
  }

  lemma RoleLinkServed(was: Db, now: Db, req: Request, d: Commit, f: Fact)
    requires AskedFor(was, req, d) && Turns(now, d, f) && f.MayGrantRole?
    ensures AboutFact(was, req, f, !True(now, f))
  {
  }

  lemma PermissionLinkServed(was: Db, now: Db, req: Request, d: Commit, f: Fact)
    requires AskedFor(was, req, d) && Turns(now, d, f) && f.MayGrantPermission?
    ensures AboutFact(was, req, f, !True(now, f))
  {
  }

  lemma RowServed(was: Db, now: Db, req: Request, d: Commit, f: Fact)
    requires AskedFor(was, req, d) && Turns(now, d, f) && f.CarriesPermission?
    ensures AboutFact(was, req, f, !True(now, f))
  {
  }

  lemma RoleServed(was: Db, now: Db, req: Request, d: Commit, f: Fact)
    requires AskedFor(was, req, d) && Turns(now, d, f) && f.IsRole?
    ensures AboutFact(was, req, f, !True(now, f))
  {
  }

  lemma FactServed(was: Db, now: Db, req: Request, d: Commit, f: Fact)
    requires Serves(was, req, d) && Turns(now, d, f)
    ensures AboutFact(was, req, f, !True(now, f))
  {
    ServedIsAskedFor(was, req, d);
    match f
    case HoldsRole(_, _) => RoleHeldServed(was, now, req, d, f);
    case HoldsPermission(_, _) => PermissionHeldServed(was, now, req, d, f);
    case MayGrantRole(_, _) => RoleLinkServed(was, now, req, d, f);
    case MayGrantPermission(_, _) => PermissionLinkServed(was, now, req, d, f);
    case CarriesPermission(_, _) => RowServed(was, now, req, d, f);
    case IsRole(_) => RoleServed(was, now, req, d, f);
  }

  lemma ColumnServed(was: Db, now: Db, req: Request, c: Commit, d: Commit, column: Column)
    requires Serves(was, req, d) && Unread(c) == Unread(d) && Writes(now, c, column).Some?
    ensures AboutColumn(was, req, column)
  {
  }

  // ------------------------------------------------------------------
  // Runs
  // ------------------------------------------------------------------

  // At step `k` somebody who could asked for the item to become so.
  ghost predicate Licensed(s: State, l: Label, item: Item, after: Cell) {
    l.Starts? && May(s.db, l.req) && About(s.db, l.req, item, after)
  }

  lemma CommitIsLicensed(s: State, l: Label, now: Db, c: Commit, item: Item)
    requires Wf(now) && Accepts(now, c) && Decides(s.db, l, c)
    requires Shows(Apply(now, c).value, item) != Shows(now, item)
    ensures Licensed(s, l, item, Shows(Apply(now, c).value, item))
  {
    DecidedExactly(s.db, l.req, l.order);
    var d :| d in Decide(s.db, l.req, l.order).value && Unread(d) == Unread(c);
    DecisionServes(s.db, l.req, l.order, d);
    match item
    case OfFact(f) => TurnIsServed(s.db, l.req, now, c, d, f);
    case OfColumn(column) =>
      CommitWrites(now, c, column);
      ColumnServed(s.db, now, l.req, c, d, column);
  }

  lemma TurnIsServed(was: Db, req: Request, now: Db, c: Commit, d: Commit, f: Fact)
    requires Wf(now) && Accepts(now, c) && Serves(was, req, d) && Unread(d) == Unread(c)
    requires True(Apply(now, c).value, f) != True(now, f)
    ensures AboutFact(was, req, f, True(Apply(now, c).value, f))
  {
    CommitSays(now, c, f);
    UnreadAlike(now, c, d, f);
    FactServed(was, now, req, d, f);
  }

  lemma OnlyCommitsChange(s: State, l: Label, item: Item)
    requires Enabled(s, l) && Shows(Next(s, l).db, item) != Shows(s.db, item)
    ensures l.Commits? && l.i < |s.inflight| && s.inflight[l.i] != [] && Accepts(s.db, s.inflight[l.i][0])
    ensures Next(s, l).db == Apply(s.db, s.inflight[l.i][0]).value
  {
    match l
    case Starts(req, order) => DrawShowsNothing(s.db, Next(s, l).db.nextRole, item);
    case _ =>
  }

  lemma DrawShowsNothing(db: Db, next: RoleId, item: Item)
    ensures Shows(db.(nextRole := next), item) == Shows(db, item)
  {
  }

  /**
   * No link, row or column changes in any run but by a request that was about it, from an
   * account that could make it when it was decided.
   */
  lemma ChangesAreLicensed(states: seq<State>, run: seq<Label>, n: nat, item: Item)
    requires Execution(states, run) && n < |run| && Shows(states[n + 1].db, item) != Shows(states[n].db, item)
    ensures exists k :: 0 <= k < n && Licensed(states[k], run[k], item, Shows(states[n + 1].db, item))
  {
    assert Step(states[n], run[n], states[n + 1]);
    AlwaysSane(states, run, n);
    OnlyCommitsChange(states[n], run[n], item);
    var c := states[n].inflight[run[n].i][0];
    CommitsWereDecided(states, run, n, run[n].i, c);
    var k :| 0 <= k < n && Decides(states[k].db, run[k], c);
    CommitIsLicensed(states[k], run[k], states[n].db, c, item);
  }

  // ------------------------------------------------------------------
  // Other tenants
  // ------------------------------------------------------------------

  // Created for somebody else than tenant `t`. A role of no tenant is everybody's.
  predicate ForeignUser(ledger: Ledger, t: Option<TenantId>, u: UserId) {
    u in ledger.home && ledger.home[u] != t
  }

  predicate ForeignRole(ledger: Ledger, t: Option<TenantId>, r: RoleId) {
    r in ledger.owner && ledger.owner[r].Some? && ledger.owner[r] != t
  }

  // A link is foreign when both its ends are. Tenant and permission rows are never an account's own.
  predicate Foreign(ledger: Ledger, t: Option<TenantId>, item: Item) {
    match item
    case OfFact(HoldsRole(u, r)) => ForeignUser(ledger, t, u) && ForeignRole(ledger, t, r)
    case OfFact(HoldsPermission(u, _)) => ForeignUser(ledger, t, u)
    case OfFact(MayGrantRole(r, g)) => ForeignRole(ledger, t, r) && ForeignRole(ledger, t, g)
    case OfFact(MayGrantPermission(r, _)) => ForeignRole(ledger, t, r)
    case OfFact(CarriesPermission(r, _)) => ForeignRole(ledger, t, r)
    case OfFact(IsRole(r)) => ForeignRole(ledger, t, r)
    case OfColumn(Account(u)) => ForeignUser(ledger, t, u)
    case OfColumn(UserActive(u)) => ForeignUser(ledger, t, u)
    case OfColumn(RoleName(r)) => ForeignRole(ledger, t, r)
    case OfColumn(RoleTenant(r)) => ForeignRole(ledger, t, r)
    case OfColumn(CachedMask(r)) => ForeignRole(ledger, t, r)
    case OfColumn(Ceiling(_)) => true
    case OfColumn(TenantActive(_)) => true
    case OfColumn(TenantName(_)) => true
    case OfColumn(PermissionRow(_)) => true
  }

  // A request of an account of tenant `t` that is no superuser.
  predicate ByAccountOf(db: Db, t: Option<TenantId>, req: Request) {
    HasActor(req) && req.actor in db.users && !db.users[req.actor].superuser && db.users[req.actor].tenant == t
  }

  // The users and roles a request is made to.
  predicate Targets(req: Request, u: UserId) {
    || Opens(req, u)
    || ((req.GiveRole? || req.TakeRole? || req.GivePermission? || req.TakePermission? || req.ActivateUser?)
        && req.target == u)
  }

  predicate Alters(db: Db, req: Request, r: RoleId) {
    || Creates(db, req, r)
    || ((req.UpdateRole? || req.DropRole? || req.ExtendRole? || req.ReduceRole? || req.AddGrantableRole?
         || req.RemoveGrantableRole? || req.AddGrantablePermission? || req.RemoveGrantablePermission?)
        && req.role == r)
  }

  predicate Involves(db: Db, req: Request, item: Item) {
    match item
    case OfFact(HoldsRole(u, r)) => Targets(req, u) || Alters(db, req, r)
    case OfFact(HoldsPermission(u, _)) => Targets(req, u)
    case OfFact(MayGrantRole(r, g)) => Alters(db, req, r) || Alters(db, req, g)
    case OfFact(MayGrantPermission(r, _)) => Alters(db, req, r)
    case OfFact(CarriesPermission(r, _)) => Alters(db, req, r)
    case OfFact(IsRole(r)) => Alters(db, req, r)
    case OfColumn(Account(u)) => Targets(req, u)
    case OfColumn(UserActive(u)) => Targets(req, u)
    case OfColumn(RoleName(r)) => Alters(db, req, r)
    case OfColumn(RoleTenant(r)) => Alters(db, req, r)
    case OfColumn(CachedMask(r)) => Alters(db, req, r)
    case _ => false
  }

  lemma AboutInvolves(db: Db, t: Option<TenantId>, req: Request, item: Item, after: Cell)
    requires ByAccountOf(db, t, req) && May(db, req) && About(db, req, item, after)
    ensures Involves(db, req, item)
  {
    match item
    case OfFact(f) => AboutFactInvolves(db, t, req, f, after == Flag(true));
    case OfColumn(column) =>
  }

  lemma AboutFactInvolves(db: Db, t: Option<TenantId>, req: Request, f: Fact, b: bool)
    requires ByAccountOf(db, t, req) && May(db, req) && AboutFact(db, req, f, b)
    ensures Involves(db, req, OfFact(f))
  {
  }

  lemma TargetIsOwn(s: State, t: Option<TenantId>, req: Request, u: UserId, later: Ledger)
    requires RowsKnown(s.db, s.ledger) && ByAccountOf(s.db, t, req) && May(s.db, req) && Targets(req, u)
    requires Extends(s.ledger, later) && Extends(Reserve(s.ledger, s.db, req), later)
    ensures !ForeignUser(later, t, u)
  {
    if Opens(req, u) {
      assert u in Reserve(s.ledger, s.db, req).home;
    } else {
      TargetIsReached(s.db, req, u);
      assert u in s.ledger.home;
    }
  }

  lemma TargetIsReached(db: Db, req: Request, u: UserId)
    requires May(db, req) && Targets(req, u) && !Opens(req, u)
    ensures Reaches(db, req.actor, u)
  {
  }

  lemma AlteredIsOwn(s: State, t: Option<TenantId>, req: Request, r: RoleId, later: Ledger)
    requires RowsKnown(s.db, s.ledger) && ByAccountOf(s.db, t, req) && May(s.db, req) && Alters(s.db, req, r)
    requires Extends(s.ledger, later) && Extends(Reserve(s.ledger, s.db, req), later)
    ensures !ForeignRole(later, t, r)
  {
    if Creates(s.db, req, r) {
      assert r in Reserve(s.ledger, s.db, req).owner;
    } else {
      AlteredIsManaged(s.db, req, r);
      assert r in s.ledger.owner;
    }
  }

  lemma AlteredIsManaged(db: Db, req: Request, r: RoleId)
    requires May(db, req) && Alters(db, req, r) && !Creates(db, req, r)
    ensures Manages(db, req.actor, r)
  {
  }

  // What such a request is about was never created for anybody else.
  lemma OwnRequestIsAboutOwn(s: State, t: Option<TenantId>, req: Request, item: Item, after: Cell, later: Ledger)
    requires RowsKnown(s.db, s.ledger) && FreshIds(s.ledger, req) && ByAccountOf(s.db, t, req)
    requires May(s.db, req) && About(s.db, req, item, after) && Extends(Reserve(s.ledger, s.db, req), later)
    ensures !Foreign(later, t, item)
  {
    ReserveExtends(s.db, s.ledger, req);
    ExtendsOn(s.ledger, Reserve(s.ledger, s.db, req), later);
    AboutInvolves(s.db, t, req, item, after);
    forall u | Targets(req, u) ensures !ForeignUser(later, t, u) {
      TargetIsOwn(s, t, req, u, later);
    }
    forall r | Alters(s.db, req, r) ensures !ForeignRole(later, t, r) {
      AlteredIsOwn(s, t, req, r, later);
    }
  }

  lemma ExtendsOn(a: Ledger, b: Ledger, c: Ledger)
    requires Extends(a, b) && Extends(b, c)
    ensures Extends(a, c)
  {
  }

  lemma StepGrowsLedger(s: State, l: Label)
    requires Sane(s) && Enabled(s, l)
    ensures Extends(s.ledger, Next(s, l).ledger)
  {
    match l
    case Starts(req, _) => ReserveExtends(s.db, s.ledger, req);
    case Commits(i) => RecordExtends(s.ledger, s.inflight[i][0]);
    case _ =>
  }

  lemma LedgerGrowsAt(states: seq<State>, run: seq<Label>, i: nat)
    requires Execution(states, run) && i < |run|
    ensures Extends(states[i].ledger, states[i + 1].ledger)
  {
    AlwaysSane(states, run, i);
    assert Step(states[i], run[i], states[i + 1]);
    StepGrowsLedger(states[i], run[i]);
  }

  lemma LedgerGrows(states: seq<State>, run: seq<Label>, k: nat, n: nat)
    requires Execution(states, run) && k <= n <= |run|
    ensures Extends(states[k].ledger, states[n].ledger)
  {
    forall i | k <= i < n ensures Extends(states[i].ledger, states[i + 1].ledger) {
      LedgerGrowsAt(states, run, i);
    }
    Growing(states, k, n);
  }

  lemma {:induction false} Growing(states: seq<State>, k: nat, n: nat)
    requires k <= n < |states| && forall i | k <= i < n :: Extends(states[i].ledger, states[i + 1].ledger)
    ensures Extends(states[k].ledger, states[n].ledger)
  {
    if k != n {
      Growing(states, k, n - 1);
      ExtendsOn(states[k].ledger, states[n - 1].ledger, states[n].ledger);
    }
  }

  /**
   * A tenant's accounts change nothing of anybody else's: when something created for another
   * tenant changes, some request licensed the change that was no request of theirs.
   */
  lemma ForeignChangesAreLicensedElsewhere(states: seq<State>, run: seq<Label>, n: nat, t: Option<TenantId>, item: Item)
    requires Execution(states, run) && n < |run| && Shows(states[n + 1].db, item) != Shows(states[n].db, item)
    requires Foreign(states[n].ledger, t, item)
    ensures exists k :: 0 <= k < n && Licensed(states[k], run[k], item, Shows(states[n + 1].db, item))
                        && !ByAccountOf(states[k].db, t, run[k].req)
  {
    ChangesAreLicensed(states, run, n, item);
    var k :| 0 <= k < n && Licensed(states[k], run[k], item, Shows(states[n + 1].db, item));
    if ByAccountOf(states[k].db, t, run[k].req) {
      LicensedIsOwn(states, run, k, n, t, item, Shows(states[n + 1].db, item));
    }
  }

  lemma LicensedIsOwn(states: seq<State>, run: seq<Label>, k: nat, n: nat, t: Option<TenantId>, item: Item, after: Cell)
    requires Execution(states, run) && k < n <= |run|
    requires Licensed(states[k], run[k], item, after) && ByAccountOf(states[k].db, t, run[k].req)
    ensures !Foreign(states[n].ledger, t, item)
  {
    assert Step(states[k], run[k], states[k + 1]);
    AlwaysSane(states, run, k);
    DecidedExactly(states[k].db, run[k].req, run[k].order);
    LedgerGrows(states, run, k + 1, n);
    OwnRequestIsAboutOwn(states[k], t, run[k].req, item, after, states[n].ledger);
  }

  // ------------------------------------------------------------------
  // A run of one tenant
  // ------------------------------------------------------------------

  // Every request of the run is a registration, a seed or a request of tenant `t`'s accounts.
  predicate WithinTenant(t: Option<TenantId>, s: State, l: Label) {
    l.Starts? && HasActor(l.req) && l.req.actor in s.db.users ==> ByAccountOf(s.db, t, l.req)
  }

  // Registering and seeding open accounts, and only new ones.
  lemma OpeningIsNew(s: State, req: Request, item: Item, after: Cell, ledger: Ledger, t: Option<TenantId>)
    requires !HasActor(req) && FreshIds(s.ledger, req) && About(s.db, req, item, after) && Extends(ledger, s.ledger)
    ensures !Foreign(ledger, t, item)
  {
  }

  /** In a run of one tenant's accounts, whatever was there for the others stays as it was. */
  lemma {:induction false} OtherTenantsStand(states: seq<State>, run: seq<Label>, n: nat, t: Option<TenantId>, item: Item)
    requires Execution(states, run) && n <= |run| && Foreign(states[0].ledger, t, item)
    requires forall k | 0 <= k < |run| :: WithinTenant(t, states[k], run[k])
    ensures Shows(states[n].db, item) == Shows(states[0].db, item)
  {
    if n != 0 {
      OtherTenantsStand(states, run, n - 1, t, item);
      OtherTenantsStandStep(states, run, n - 1, t, item);
    }
  }

  lemma ForeignStays(a: Ledger, b: Ledger, t: Option<TenantId>, item: Item)
    requires Foreign(a, t, item) && Extends(a, b)
    ensures Foreign(b, t, item)
  {
  }

  lemma OtherTenantsStandStep(states: seq<State>, run: seq<Label>, n: nat, t: Option<TenantId>, item: Item)
    requires Execution(states, run) && n < |run| && Foreign(states[0].ledger, t, item)
    requires forall k | 0 <= k < |run| :: WithinTenant(t, states[k], run[k])
    ensures Shows(states[n + 1].db, item) == Shows(states[n].db, item)
  {
    if Shows(states[n + 1].db, item) != Shows(states[n].db, item) {
      LedgerGrows(states, run, 0, n);
      ForeignStays(states[0].ledger, states[n].ledger, t, item);
      ForeignChangesAreLicensedElsewhere(states, run, n, t, item);
      var k :| 0 <= k < n && Licensed(states[k], run[k], item, Shows(states[n + 1].db, item))
               && !ByAccountOf(states[k].db, t, run[k].req);
      assert WithinTenant(t, states[k], run[k]);
      OpeningAt(states, run, k, item, Shows(states[n + 1].db, item), t);
    }
  }

  lemma OpeningAt(states: seq<State>, run: seq<Label>, k: nat, item: Item, after: Cell, t: Option<TenantId>)
    requires Execution(states, run) && k < |run| && Licensed(states[k], run[k], item, after)
    requires WithinTenant(t, states[k], run[k]) && !ByAccountOf(states[k].db, t, run[k].req)
    ensures !Foreign(states[0].ledger, t, item)
  {
    assert Step(states[k], run[k], states[k + 1]);
    LedgerGrows(states, run, 0, k);
    DecidedExactly(states[k].db, run[k].req, run[k].order);
    OpeningIsNew(states[k], run[k].req, item, after, states[0].ledger, t);
  }

  // ------------------------------------------------------------------
  // Roles of no tenant are everybody's
  // ------------------------------------------------------------------

  /**
   * The exception: any account may drop, rename or edit a role of no tenant, and dropping
   * it takes it from the users of every tenant.
   */
  lemma SharedRolesCanBeDropped(db: Db, a: UserId, u: UserId, r: RoleId, order: seq<nat>)
    requires Wf(db) && a in db.users && (u, r) in db.userRoles && db.roles[r].tenant.None?
    ensures var (end, ok) := ApplyAll(db, Decide(db, DropRole(a, r), order).value);
            Decide(db, DropRole(a, r), order).Success? && ok && (u, r) !in end.userRoles
  {
    RequestTurnsFact(db, DropRole(a, r), order);
    SingleDecision(db, DropRole(a, r), order);
    ApplyFirst(db, DeleteRole(r), []);
    CommitSays(db, DeleteRole(r), HoldsRole(u, r));
  }

  // And no other: a role a tenant owns can be dropped by its own accounts and superusers alone.
  lemma OwnedRolesAreManagedAtHome(db: Db, a: UserId, r: RoleId, t: TenantId, order: seq<nat>)
    requires a in db.users && r in db.roles && db.roles[r].tenant == Some(t)
    ensures Decide(db, DropRole(a, r), order).Success? <==> db.users[a].superuser || db.users[a].tenant == Some(t)
  {
    DecidedExactly(db, DropRole(a, r), order);
  }
}
