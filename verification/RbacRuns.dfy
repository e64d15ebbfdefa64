/**
 * Runs of the role-based access control system: any number of requests in flight, each
 * decided on one state of the tables and then committing step by step between the commits
 * of the others. A role's id is drawn from its sequence when the request is decided, and an
 * edit of a role's permissions writes the mask it computes from the role as it was loaded,
 * by the decision or after the request's previous edit.
 */
module RbacRuns {
  import opened Wrappers
  import opened Registry
  import opened Database
  import opened Delegation
  import opened Services

  // What the run remembers beyond the tables: the tenant each role and user was created
  // for, and every permission bit each tenant's ceiling has ever had.
  datatype Ledger = Ledger(owner: map<RoleId, Option<TenantId>>, home: map<UserId, Option<TenantId>>,
                           ever: map<TenantId, Mask>)

  // `roleReads` are mints that have read the roles, `tokens` the masks handed out.
  datatype State = State(db: Db, inflight: seq<seq<Commit>>, ledger: Ledger,
                         roleReads: set<(UserId, Mask)>, tokens: set<(UserId, Mask)>)

  datatype Label =
    | Starts(req: Request, order: seq<nat>)
    | Commits(i: nat)
    | Fails(i: nat)
    | ReadsRoles(user: UserId)
    | Mints(user: UserId, roleMask: Mask)

  predicate DrawsRoleId(req: Request) {
    req.CreateRole? || req.CreateTenant?
  }

  // Identifiers the application generates at random are new.
  predicate FreshIds(ledger: Ledger, req: Request) {
    match req
    case Register(u, _, _) => u !in ledger.home
    case Seed(u, _, _) => u !in ledger.home
    case CreateUser(_, u, _, _) => u !in ledger.home
    case CreateTenant(_, t, _, admin, _, _, _) => t !in ledger.ever && admin !in ledger.home
    case _ => true
  }

  function Reserve(ledger: Ledger, db: Db, req: Request): Ledger {
    match req
    case Register(u, _, _) => ledger.(home := ledger.home[u := None])
    case Seed(u, _, _) => ledger.(home := ledger.home[u := None])
    case CreateUser(a, u, _, _) =>
      if a in db.users then ledger.(home := ledger.home[u := db.users[a].tenant]) else ledger
    case CreateRole(a, _, _) =>
      if a in db.users
      then ledger.(owner := ledger.owner[db.nextRole := if db.users[a].superuser then None else db.users[a].tenant])
      else ledger
    case CreateTenant(_, t, _, admin, _, _, _) =>
      Ledger(ledger.owner[db.nextRole := Some(t)], ledger.home[admin := Some(t)], ledger.ever[t := {}])
    case _ => ledger
  }

  function Record(ledger: Ledger, c: Commit): Ledger {
    match c
    case InsertTenant(t, _, allowed) => Widen(ledger, t, allowed)
    case SetCeiling(t, allowed, _) => Widen(ledger, t, allowed)
    case _ => ledger
  }

  function Widen(ledger: Ledger, t: TenantId, allowed: Mask): Ledger {
    ledger.(ever := ledger.ever[t := allowed + if t in ledger.ever then ledger.ever[t] else {}])
  }

  predicate Enabled(s: State, l: Label) {
    match l
    case Starts(req, _) => FreshIds(s.ledger, req)
    case Commits(i) => i < |s.inflight| && s.inflight[i] != []
    case Fails(i) => i < |s.inflight|
    case ReadsRoles(u) => u in s.db.users
    case Mints(u, m) => (u, m) in s.roleReads
  }

  ghost function Start(s: State, req: Request, order: seq<nat>): State {
    match Decide(s.db, req, order)
    case Failure(_) => s
    case Success(cs) =>
      s.(db := if DrawsRoleId(req) then s.db.(nextRole := s.db.nextRole + 1) else s.db,
         inflight := s.inflight + [cs],
         ledger := Reserve(s.ledger, s.db, req))
  }

  // The linking loop of `create_role` passes over a link it finds in place.
  predicate AlreadyLinked(db: Db, c: Commit) {
    c.LinkRole? && (c.role, c.grantable) in db.grantRoles
  }

  ghost function CommitNext(s: State, i: nat): State
    requires i < |s.inflight| && s.inflight[i] != []
  {
    var c := s.inflight[i][0];
    match Apply(s.db, c)
    case None => s.(inflight := s.inflight[i := if AlreadyLinked(s.db, c) then s.inflight[i][1..] else []])
    case Some(next) =>
      s.(db := next, inflight := s.inflight[i := Reloaded(next, s.inflight[i][1..])], ledger := Record(s.ledger, c))
  }

  ghost function Next(s: State, l: Label): State
    requires Enabled(s, l)
  {
    match l
    case Starts(req, order) => Start(s, req, order)
    case Commits(i) => CommitNext(s, i)
    case Fails(i) => s.(inflight := s.inflight[i := []])
    case ReadsRoles(u) => s.(roleReads := s.roleReads + {(u, RoleMask(s.db, u))})
    case Mints(u, m) => s.(tokens := s.tokens + {(u, m + DirectMask(s.db, u))})
  }

  ghost predicate Step(s: State, l: Label, t: State) {
    Enabled(s, l) && t == Next(s, l)
  }

  ghost predicate Execution(states: seq<State>, run: seq<Label>) {
    && |states| == |run| + 1 && Initial(states[0])
    && forall i | 0 <= i < |run| :: Step(states[i], run[i], states[i + 1])
  }

  // A deployment after its permission sync, with nothing in flight.
  ghost predicate Initial(s: State) {
    && Wf(s.db) && Synced(s.db) && MasksAgree(s.db)
    && s.inflight == [] && s.roleReads == {} && s.tokens == {}
    && s.ledger.owner == (map r | r in s.db.roles :: s.db.roles[r].tenant)
    && s.ledger.home == (map u | u in s.db.users :: s.db.users[u].tenant)
    && s.ledger.ever == (map t | t in s.db.tenants :: s.db.tenants[t].allowed)
  }

  // ------------------------------------------------------------------
  // Invariants of every run
  // ------------------------------------------------------------------

  // The ledger knows every row, and every row about to be inserted.
  predicate Known(db: Db, ledger: Ledger, c: Commit) {
    match c
    case InsertUser(u, _, _, home, _) => u in ledger.home && ledger.home[u] == home
    case InsertTenant(t, _, _) => t in ledger.ever
    case SetCeiling(t, _, _) => t in ledger.ever
    case InsertRole(r, row) =>
      && r in ledger.owner && ledger.owner[r] == row.tenant
      && row.perms <= db.perms.Keys && row.mask == RowBits(db, row.perms)
    case CreateRootRole(r, t, _) => r in ledger.owner && ledger.owner[r] == Some(t)
    case InsertPermission(_, _, _) => false
    case _ => true
  }

  ghost predicate RowsKnown(db: Db, ledger: Ledger) {
    && (forall r | r in db.roles :: r in ledger.owner && ledger.owner[r] == db.roles[r].tenant)
    && (forall r | r in ledger.owner :: r < db.nextRole)
    && (forall u | u in db.users :: u in ledger.home && ledger.home[u] == db.users[u].tenant)
    && (forall t | t in db.tenants :: t in ledger.ever && db.tenants[t].allowed <= ledger.ever[t])
  }

  ghost predicate AllKnown(db: Db, ledger: Ledger, cs: seq<Commit>) {
    forall c | c in cs :: Known(db, ledger, c)
  }

  ghost predicate Sane(s: State) {
    && Wf(s.db) && Synced(s.db)
    && RowsKnown(s.db, s.ledger)
    && (forall i | 0 <= i < |s.inflight| :: AllKnown(s.db, s.ledger, s.inflight[i]))
  }

  // The ledger only grows: creations are never rewritten and ceilings only widen.
  ghost predicate Extends(a: Ledger, b: Ledger) {
    && (forall r | r in a.owner :: r in b.owner && b.owner[r] == a.owner[r])
    && (forall u | u in a.home :: u in b.home && b.home[u] == a.home[u])
    && (forall t | t in a.ever :: t in b.ever && a.ever[t] <= b.ever[t])
  }

  lemma RecordExtends(ledger: Ledger, c: Commit)
    ensures Extends(ledger, Record(ledger, c))
  {
  }

  lemma ReserveExtends(db: Db, ledger: Ledger, req: Request)
    requires RowsKnown(db, ledger) && FreshIds(ledger, req)
    ensures Extends(ledger, Reserve(ledger, db, req))
  {
  }

  lemma KnownOutlives(db: Db, next: Db, a: Ledger, b: Ledger, cs: seq<Commit>)
    requires AllKnown(db, a, cs) && Extends(a, b)
    requires next.cat == db.cat && forall p | p in db.perms :: p in next.perms && next.perms[p] == db.perms[p]
    ensures AllKnown(next, b, cs)
  {
  }

  lemma ReloadedKnown(db: Db, ledger: Ledger, cs: seq<Commit>)
    requires AllKnown(db, ledger, cs)
    ensures AllKnown(db, ledger, Reloaded(db, cs))
  {
    forall c | c in Reloaded(db, cs) ensures Known(db, ledger, c) {
      var i :| 0 <= i < |cs| && c == Reload(db, cs[i]);
    }
  }

  lemma CreateRoleIsKnown(s: State, req: Request, order: seq<nat>)
    requires Sane(s) && req.CreateRole? && Decide(s.db, req, order).Success?
    ensures AllKnown(s.db, Reserve(s.ledger, s.db, req), Decide(s.db, req, order).value)
  {
    var names := Closure(s.db.cat.implies, Elements(req.names));
    RowsNamedCarryTheMask(s.db, names);
    LinkEachIs(Arrange(RolesOf(s.db, req.actor), order), s.db.nextRole);
  }

  lemma CreateTenantIsKnown(s: State, req: Request, order: seq<nat>)
    requires Sane(s) && req.CreateTenant? && Decide(s.db, req, order).Success?
    ensures AllKnown(s.db, Reserve(s.ledger, s.db, req), Decide(s.db, req, order).value)
  {
  }

  lemma NewUserIsKnown(s: State, req: Request, order: seq<nat>)
    requires Sane(s) && (req.Register? || req.Seed? || req.CreateUser?) && Decide(s.db, req, order).Success?
    ensures AllKnown(s.db, Reserve(s.ledger, s.db, req), Decide(s.db, req, order).value)
  {
  }

  lemma ExtendRoleIsKnown(db: Db, ledger: Ledger, req: Request, order: seq<nat>)
    requires req.ExtendRole? && Decide(db, req, order).Success?
    ensures AllKnown(db, ledger, Decide(db, req, order).value)
  {
  }

  lemma UpdateCeilingIsKnown(db: Db, ledger: Ledger, req: Request, order: seq<nat>)
    requires RowsKnown(db, ledger) && req.UpdateCeiling? && Decide(db, req, order).Success?
    ensures AllKnown(db, ledger, Decide(db, req, order).value)
  {
  }

  lemma SingleIsKnown(db: Db, ledger: Ledger, req: Request, order: seq<nat>)
    requires SingleCommit(db, req).Some? && Decide(db, req, order).Success?
    ensures AllKnown(db, Reserve(ledger, db, req), Decide(db, req, order).value)
  {
  }

  lemma DecisionIsKnown(s: State, req: Request, order: seq<nat>)
    requires Sane(s) && FreshIds(s.ledger, req) && Decide(s.db, req, order).Success?
    ensures AllKnown(s.db, Reserve(s.ledger, s.db, req), Decide(s.db, req, order).value)
  {
    match req
    case Register(_, _, _) => NewUserIsKnown(s, req, order);
    case Seed(_, _, _) => NewUserIsKnown(s, req, order);
    case CreateUser(_, _, _, _) => NewUserIsKnown(s, req, order);
    case CreateRole(_, _, _) => CreateRoleIsKnown(s, req, order);
    case CreateTenant(_, _, _, _, _, _, _) => CreateTenantIsKnown(s, req, order);
    case ExtendRole(_, _, _) => ExtendRoleIsKnown(s.db, s.ledger, req, order);
    case UpdateCeiling(_, _, _) => UpdateCeilingIsKnown(s.db, s.ledger, req, order);
    case _ => SingleIsKnown(s.db, s.ledger, req, order);
  }

  // Drawing from the sequence changes no table.
  lemma DrawKeepsTables(db: Db, next: RoleId)
    requires Wf(db) && Synced(db) && db.nextRole <= next
    ensures var t := db.(nextRole := next); Wf(t) && Synced(t) && (MasksAgree(t) <==> MasksAgree(db))
  {
    var t := db.(nextRole := next);
    forall n | n in t.cat.bits ensures exists p :: IsRowOf(t, p, n) {
      var p :| IsRowOf(db, p, n);
      assert IsRowOf(t, p, n);
    }
    assert forall r | r in t.roles :: RowBits(t, t.roles[r].perms) == RowBits(db, db.roles[r].perms);
  }

  lemma ReserveKeepsRowsKnown(db: Db, ledger: Ledger, req: Request)
    requires Wf(db) && RowsKnown(db, ledger) && FreshIds(ledger, req)
    ensures var next := if DrawsRoleId(req) then db.nextRole + 1 else db.nextRole;
            RowsKnown(db.(nextRole := next), Reserve(ledger, db, req))
  {
  }

  lemma StartKeepsRows(s: State, req: Request, order: seq<nat>)
    requires Sane(s) && FreshIds(s.ledger, req) && Decide(s.db, req, order).Success?
    ensures var t := Start(s, req, order);
            Wf(t.db) && Synced(t.db) && RowsKnown(t.db, t.ledger)
  {
    var next := if DrawsRoleId(req) then s.db.nextRole + 1 else s.db.nextRole;
    assert Start(s, req, order).db == s.db.(nextRole := next);
    DrawKeepsTables(s.db, next);
    ReserveKeepsRowsKnown(s.db, s.ledger, req);
  }

  lemma StartKeepsSane(s: State, req: Request, order: seq<nat>)
    requires Sane(s) && FreshIds(s.ledger, req)
    ensures Sane(Start(s, req, order))
  {
    if Decide(s.db, req, order).Success? {
      var t := Start(s, req, order);
      StartKeepsRows(s, req, order);
      DecisionIsKnown(s, req, order);
      ReserveExtends(s.db, s.ledger, req);
      forall i | 0 <= i < |t.inflight| ensures AllKnown(t.db, t.ledger, t.inflight[i]) {
        KnownOutlives(s.db, t.db, if i < |s.inflight| then s.ledger else t.ledger, t.ledger, t.inflight[i]);
      }
    }
  }

  lemma ApplyKeepsRowsKnown(db: Db, ledger: Ledger, c: Commit)
    requires Wf(db) && RowsKnown(db, ledger) && Known(db, ledger, c) && Accepts(db, c)
    ensures RowsKnown(Apply(db, c).value, Record(ledger, c))
  {
    var next, recorded := Apply(db, c).value, Record(ledger, c);
    RolesStayKnown(db, ledger, c);
    forall u | u in next.users ensures u in recorded.home && recorded.home[u] == next.users[u].tenant {
      UserStaysKnown(db, ledger, c, u);
    }
    forall t | t in next.tenants ensures t in recorded.ever && next.tenants[t].allowed <= recorded.ever[t] {
      TenantStaysKnown(db, ledger, c, t);
    }
  }

  lemma RolesStayKnown(db: Db, ledger: Ledger, c: Commit)
    requires RowsKnown(db, ledger) && Known(db, ledger, c) && Accepts(db, c)
    ensures var next, recorded := Apply(db, c).value, Record(ledger, c);
            && (forall r | r in next.roles :: r in recorded.owner && recorded.owner[r] == next.roles[r].tenant)
            && (forall r | r in recorded.owner :: r < next.nextRole)
  {
  }

  lemma UserStaysKnown(db: Db, ledger: Ledger, c: Commit, u: UserId)
    requires RowsKnown(db, ledger) && Known(db, ledger, c) && Accepts(db, c) && u in Apply(db, c).value.users
    ensures var next, recorded := Apply(db, c).value, Record(ledger, c);
            u in recorded.home && recorded.home[u] == next.users[u].tenant
  {
  }

  lemma TenantStaysKnown(db: Db, ledger: Ledger, c: Commit, t: TenantId)
    requires RowsKnown(db, ledger) && Known(db, ledger, c) && Accepts(db, c) && t in Apply(db, c).value.tenants
    ensures var next, recorded := Apply(db, c).value, Record(ledger, c);
            t in recorded.ever && next.tenants[t].allowed <= recorded.ever[t]
  {
  }

  lemma CommitKeepsSane(s: State, i: nat)
    requires Sane(s) && i < |s.inflight| && s.inflight[i] != []
    ensures Sane(CommitNext(s, i))
  {
    var c, t := s.inflight[i][0], CommitNext(s, i);
    assert AllKnown(s.db, s.ledger, s.inflight[i]) && Known(s.db, s.ledger, c);
    if Accepts(s.db, c) {
      ApplyKeepsWf(s.db, c);
      SyncedKept(s.db, c);
      RowsAreMonotone(s.db, c);
      RecordExtends(s.ledger, c);
      ApplyKeepsRowsKnown(s.db, s.ledger, c);
      forall j | 0 <= j < |t.inflight| ensures AllKnown(t.db, t.ledger, t.inflight[j]) {
        assert AllKnown(s.db, s.ledger, s.inflight[j]);
        KnownOutlives(s.db, t.db, s.ledger, t.ledger, s.inflight[j]);
        if j == i {
          ReloadedKnown(t.db, t.ledger, s.inflight[j][1..]);
        }
      }
    }
  }

  lemma StepKeepsSane(s: State, l: Label)
    requires Sane(s) && Enabled(s, l)
    ensures Sane(Next(s, l))
  {
    match l
    case Starts(req, order) => StartKeepsSane(s, req, order);
    case Commits(i) => CommitKeepsSane(s, i);
    case _ =>
  }

  lemma {:induction false} AlwaysSane(states: seq<State>, run: seq<Label>, i: nat)
    requires Execution(states, run) && i <= |run|
    ensures Sane(states[i])
  {
    if i != 0 {
      AlwaysSane(states, run, i - 1);
      assert Step(states[i - 1], run[i - 1], states[i]);
      StepKeepsSane(states[i - 1], run[i - 1]);
    }
  }

  // ------------------------------------------------------------------
  // A request left alone
  // ------------------------------------------------------------------

  // The request commits until it has nothing left.
  ghost function RunAlone(s: State, i: nat): State
    requires i < |s.inflight|
    decreases |s.inflight[i]|
  {
    if s.inflight[i] == [] then s else RunAlone(CommitNext(s, i), i)
  }

  // Only the linking loop of a create-role request goes on after a commit that fails.
  predicate LinksLast(cs: seq<Commit>) {
    forall k | 0 <= k < |cs| - 1 :: !cs[k].LinkRole?
  }

  lemma RestLinksLast(db: Db, cs: seq<Commit>)
    requires LinksLast(cs) && cs != []
    ensures LinksLast(cs[1..]) && LinksLast(Reloaded(db, cs[1..]))
  {
    assert forall k | 0 <= k < |cs| - 2 :: cs[1..][k] == cs[k + 1];
  }

  // Whoever links the same roles meanwhile, after its turn in the loop a link is there, and
  // the loop goes on; only a role that is gone stops it.
  lemma LinkTurn(s: State, i: nat)
    requires i < |s.inflight| && s.inflight[i] != [] && forall c | c in s.inflight[i] :: c.LinkRole?
    ensures var c, t := s.inflight[i][0], CommitNext(s, i);
            if c.role in s.db.roles && c.grantable in s.db.roles
            then t.db.grantRoles == s.db.grantRoles + {(c.role, c.grantable)} && t.inflight[i] == s.inflight[i][1..]
            else Sane(s) ==> t == s.(inflight := s.inflight[i := []])
  {
    var c := s.inflight[i][0];
    assert c in s.inflight[i];
    if Accepts(s.db, c) {
      assert forall d | d in s.inflight[i][1..] :: d in s.inflight[i];
      NothingToReload(Apply(s.db, c).value, s.inflight[i][1..]);
    } else if AlreadyLinked(s.db, c) {
      assert s.db.grantRoles + {(c.role, c.grantable)} == s.db.grantRoles;
      assert (c.role, c.grantable).0 == c.role;
    }
  }

  /**
   * Undisturbed, a request in flight does to the tables what its commits do in one go,
   * stopping at the first that fails.
   */
  lemma {:induction false} AloneIsApplyAll(s: State, i: nat)
    requires i < |s.inflight|
    requires LinksLast(s.inflight[i]) || ApplyAll(s.db, s.inflight[i]).1
    ensures RunAlone(s, i).db == ApplyAll(s.db, s.inflight[i]).0
    decreases |s.inflight[i]|
  {
    var cs := s.inflight[i];
    if cs != [] {
      if LinksLast(cs) && Accepts(s.db, cs[0]) {
        RestLinksLast(Apply(s.db, cs[0]).value, cs);
      }
      AloneIsApplyAll(CommitNext(s, i), i);
    }
  }

  // ------------------------------------------------------------------
  // Cached masks agree with the rows, and when they stop
  // ------------------------------------------------------------------

  // The step is no edit, or its role object still has the mask the column has.
  predicate EditIsCurrent(s: State, l: Label) {
    l.Commits? && l.i < |s.inflight| && s.inflight[l.i] != [] && Accepts(s.db, s.inflight[l.i][0]) ==>
      ReadIsCurrent(s.db, s.inflight[l.i][0])
  }

  lemma AgreementStep(s: State, l: Label)
    requires Sane(s) && MasksAgree(s.db) && Enabled(s, l)
    ensures MasksAgree(Next(s, l).db) <==> EditIsCurrent(s, l)
  {
    match l
    case Starts(req, order) => DrawKeepsTables(s.db, Start(s, req, order).db.nextRole);
    case Commits(i) =>
      var c := s.inflight[i][0];
      assert AllKnown(s.db, s.ledger, s.inflight[i]) && Known(s.db, s.ledger, c);
      if Accepts(s.db, c) {
        AgreementKeptExactly(s.db, c);
      }
    case _ =>
  }

  /**
   * Over a whole run, every role's cached mask is the OR of its permission rows' bits in
   * every state exactly when every edit was made on a mask that was still current.
   */
  lemma {:induction false} MasksAgreeExactly(states: seq<State>, run: seq<Label>, n: nat)
    requires Execution(states, run) && n <= |run|
    ensures (forall i | 0 <= i <= n :: MasksAgree(states[i].db)) <==> forall k | 0 <= k < n :: EditIsCurrent(states[k], run[k])
  {
    if n != 0 {
      MasksAgreeExactly(states, run, n - 1);
      AlwaysSane(states, run, n - 1);
      assert Step(states[n - 1], run[n - 1], states[n]);
      if MasksAgree(states[n - 1].db) {
        AgreementStep(states[n - 1], run[n - 1]);
      }
    }
  }

  // While they agree, the mask a token is minted with is `mask_for` of the user's effective
  // permissions whenever those are all registered.
  lemma MintedMaskIsMaskFor(states: seq<State>, run: seq<Label>, n: nat, u: UserId)
    requires Execution(states, run) && n <= |run| && forall k | 0 <= k < n :: EditIsCurrent(states[k], run[k])
    ensures var db := states[n].db;
            EffectivePermissions(db, u) <= db.cat.bits.Keys ==>
              MaskFor(db.cat, EffectivePermissions(db, u)) == Success(EffectiveMask(db, u))
  {
    AlwaysSane(states, run, n);
    MasksAgreeExactly(states, run, n);
    MaskIsMaskForNames(states[n].db, u);
  }

  // ------------------------------------------------------------------
  // Edits of one role that do not overlap
  // ------------------------------------------------------------------

  // The commit may write the mask of role `r`.
  predicate WritesMask(db: Db, c: Commit, r: RoleId) {
    match c
    case InsertRole(q, _) => q == r
    case CreateRootRole(q, _, _) => q == r
    case SyncRootRole(t, _) => IsRootRole(db, t, r)
    case AddPermission(q, _, _) => q == r
    case RemovePermission(q, _, _) => q == r
    case _ => false
  }

  predicate Edits(c: Commit, r: RoleId) {
    (c.AddPermission? || c.RemovePermission?) && c.role == r
  }

  // No request writes a role's mask while another has an edit of that role to make.
  ghost predicate NoOverlap(s: State, l: Label) {
    l.Commits? && l.i < |s.inflight| && s.inflight[l.i] != [] ==>
      forall j, r | 0 <= j < |s.inflight| && j != l.i && s.inflight[j] != []
                    && WritesMask(s.db, s.inflight[l.i][0], r) :: !Edits(s.inflight[j][0], r)
  }

  predicate HeadIsCurrent(db: Db, cs: seq<Commit>) {
    cs != [] && (cs[0].AddPermission? || cs[0].RemovePermission?) && cs[0].role in db.roles ==>
      cs[0].read == db.roles[cs[0].role].mask
  }

  // A request only adds permissions, or adds none and removes at most one, alone.
  predicate Uniform(cs: seq<Commit>) {
    || (forall c | c in cs :: c.AddPermission?)
    || (forall c | c in cs :: !c.AddPermission? && (c.RemovePermission? ==> |cs| == 1))
  }

  ghost predicate HeadsAreCurrent(s: State) {
    forall j | 0 <= j < |s.inflight| :: HeadIsCurrent(s.db, s.inflight[j]) && Uniform(s.inflight[j])
  }

  lemma UnwrittenMask(db: Db, c: Commit, r: RoleId)
    requires Accepts(db, c) && !WritesMask(db, c, r)
    ensures r in Apply(db, c).value.roles ==> r in db.roles && Apply(db, c).value.roles[r].mask == db.roles[r].mask
  {
  }

  lemma HeadsStayCurrent(s: State, i: nat)
    requires HeadsAreCurrent(s) && i < |s.inflight| && s.inflight[i] != [] && NoOverlap(s, Commits(i))
    ensures HeadsAreCurrent(CommitNext(s, i))
  {
    var c, t := s.inflight[i][0], CommitNext(s, i);
    forall j | 0 <= j < |t.inflight| ensures HeadIsCurrent(t.db, t.inflight[j]) && Uniform(t.inflight[j]) {
      assert HeadIsCurrent(s.db, s.inflight[j]) && Uniform(s.inflight[j]);
      if j == i {
        TailIsCurrent(t.db, s.inflight[i]);
      } else if Accepts(s.db, c) && s.inflight[j] != [] {
        var d := s.inflight[j][0];
        if (d.AddPermission? || d.RemovePermission?) && d.role in t.db.roles {
          assert Edits(d, d.role) && !WritesMask(s.db, c, d.role);
          UnwrittenMask(s.db, c, d.role);
        }
      }
    }
  }

  lemma TailIsCurrent(db: Db, cs: seq<Commit>)
    requires cs != [] && Uniform(cs)
    ensures HeadIsCurrent(db, Reloaded(db, cs[1..])) && Uniform(Reloaded(db, cs[1..]))
    ensures cs[0].LinkRole? ==> HeadIsCurrent(db, cs[1..]) && Uniform(cs[1..])
  {
    var tail := Reloaded(db, cs[1..]);
    assert forall i | 0 <= i < |tail| :: cs[1..][i] in cs;
    assert cs[0] in cs;
  }

  lemma DecisionIsCurrent(db: Db, req: Request, order: seq<nat>)
    requires Decide(db, req, order).Success?
    ensures HeadIsCurrent(db, Decide(db, req, order).value) && Uniform(Decide(db, req, order).value)
  {
    if SingleCommit(db, req).Some? {
      SingleDecision(db, req, order);
    } else if req.CreateRole? {
      LinkEachIs(Arrange(RolesOf(db, req.actor), order), db.nextRole);
    }
  }

  lemma CurrentStep(s: State, l: Label)
    requires HeadsAreCurrent(s) && Enabled(s, l) && NoOverlap(s, l)
    ensures HeadsAreCurrent(Next(s, l)) && EditIsCurrent(s, l)
  {
    match l
    case Starts(req, order) =>
      if Decide(s.db, req, order).Success? {
        DecisionIsCurrent(s.db, req, order);
      }
    case Commits(i) =>
      HeadsStayCurrent(s, i);
      assert HeadIsCurrent(s.db, s.inflight[i]);
    case _ =>
  }

  // So masks always agree in runs whose edits of one role never overlap.
  lemma {:induction false} SeparateEditsAgree(states: seq<State>, run: seq<Label>, n: nat)
    requires Execution(states, run) && n <= |run| && forall k | 0 <= k < |run| :: NoOverlap(states[k], run[k])
    ensures HeadsAreCurrent(states[n]) && MasksAgree(states[n].db)
  {
    if n == 0 {
      StartIsCurrent(states[0]);
    } else {
      SeparateEditsAgree(states, run, n - 1);
      AlwaysSane(states, run, n - 1);
      SeparateStep(states, run, n - 1);
    }
  }

  lemma StartIsCurrent(s: State)
    requires Initial(s)
    ensures HeadsAreCurrent(s) && MasksAgree(s.db)
  {
  }

  lemma SeparateStep(states: seq<State>, run: seq<Label>, i: nat)
    requires Execution(states, run) && i < |run| && forall k | 0 <= k < |run| :: NoOverlap(states[k], run[k])
    requires Sane(states[i]) && HeadsAreCurrent(states[i]) && MasksAgree(states[i].db)
    ensures HeadsAreCurrent(states[i + 1]) && MasksAgree(states[i + 1].db)
  {
    assert Step(states[i], run[i], states[i + 1]) && NoOverlap(states[i], run[i]);
    CurrentStep(states[i], run[i]);
    AgreementStep(states[i], run[i]);
  }

  // ------------------------------------------------------------------
  // And when they do overlap
  // ------------------------------------------------------------------

  // The actor asks for one permission that implies nothing the catalog has a row for.
  ghost predicate AddsAlone(db: Db, actor: UserId, role: RoleId, perm: PermId) {
    && actor in db.users && db.users[actor].superuser && role in db.roles
    && perm in db.perms && perm !in db.roles[role].perms && db.perms[perm].bit.Some?
    && RowsNamed(db, ImpliedToAdd(db, role, perm)) == {}
  }

  lemma AloneDecides(db: Db, actor: UserId, role: RoleId, perm: PermId)
    requires AddsAlone(db, actor, role, perm)
    ensures Decide(db, ExtendRole(actor, role, perm), [])
            == Success([AddPermission(role, perm, db.roles[role].mask)])
  {
    assert [perm] + [] == [perm];
    assert AddEach(role, [perm], db.roles[role].mask) == [AddPermission(role, perm, db.roles[role].mask)];
  }

  lemma AloneStarts(s: State, actor: UserId, role: RoleId, perm: PermId)
    requires AddsAlone(s.db, actor, role, perm)
    ensures var l := Starts(ExtendRole(actor, role, perm), []);
            Enabled(s, l) && Next(s, l) == s.(inflight := s.inflight + [[AddPermission(role, perm, s.db.roles[role].mask)]])
  {
    AloneDecides(s.db, actor, role, perm);
  }

  lemma LastCommits(s: State, i: nat, c: Commit)
    requires i < |s.inflight| && s.inflight[i] == [c] && Accepts(s.db, c) && c.AddPermission?
    ensures Enabled(s, Commits(i)) && Next(s, Commits(i)) == s.(db := Apply(s.db, c).value, inflight := s.inflight[i := []])
  {
    assert [c][1..] == [];
  }

  /**
   * Two requests that each add a permission to one role, decided before either commits:
   * the role ends with both rows, but without the first one's bit in its mask.
   */
  lemma OverlappingAddsLoseABit(s: State, actor: UserId, role: RoleId, p: PermId, q: PermId)
    returns (states: seq<State>, run: seq<Label>)
    requires Initial(s) && p != q && AddsAlone(s.db, actor, role, p) && AddsAlone(s.db, actor, role, q)
    ensures Execution(states, run) && states[0] == s && |run| == 4
    ensures var end := states[4].db;
            && role in end.roles && p in end.roles[role].perms && q in end.roles[role].perms
            && s.db.perms[p].bit.value !in end.roles[role].mask && !MasksAgree(end)
  {
    var mask := s.db.roles[role].mask;
    var first, second := AddPermission(role, p, mask), AddPermission(role, q, mask);
    var s1, s2 := BothStart(s, actor, role, p, q);
    BothRowsOneBit(s.db, role, p, q);
    var s3, s4 := BothCommit(s2, first, second);
    var l1, l2 := Starts(ExtendRole(actor, role, p), []), Starts(ExtendRole(actor, role, q), []);
    FourSteps(s, l1, s1, l2, s2, Commits(0), s3, Commits(1), s4);
    states, run := [s, s1, s2, s3, s4], [l1, l2, Commits(0), Commits(1)];
  }

  lemma BothStart(s: State, actor: UserId, role: RoleId, p: PermId, q: PermId) returns (s1: State, s2: State)
    requires s.inflight == [] && AddsAlone(s.db, actor, role, p) && AddsAlone(s.db, actor, role, q)
    ensures Step(s, Starts(ExtendRole(actor, role, p), []), s1) && Step(s1, Starts(ExtendRole(actor, role, q), []), s2)
    ensures var mask := s.db.roles[role].mask;
            s2 == s.(inflight := [[AddPermission(role, p, mask)], [AddPermission(role, q, mask)]])
  {
    AloneStarts(s, actor, role, p);
    s1 := Next(s, Starts(ExtendRole(actor, role, p), []));
    AloneStarts(s1, actor, role, q);
    s2 := Next(s1, Starts(ExtendRole(actor, role, q), []));
  }

  lemma BothCommit(s: State, first: Commit, second: Commit) returns (s1: State, s2: State)
    requires s.inflight == [[first], [second]] && first.AddPermission? && second.AddPermission?
    requires Accepts(s.db, first) && Accepts(Apply(s.db, first).value, second)
    ensures Step(s, Commits(0), s1) && Step(s1, Commits(1), s2)
    ensures s2.db == Apply(Apply(s.db, first).value, second).value
  {
    LastCommits(s, 0, first);
    s1 := Next(s, Commits(0));
    LastCommits(s1, 1, second);
    s2 := Next(s1, Commits(1));
  }

  lemma FourSteps(s0: State, l1: Label, s1: State, l2: Label, s2: State, l3: Label, s3: State, l4: Label, s4: State)
    requires Initial(s0) && Step(s0, l1, s1) && Step(s1, l2, s2) && Step(s2, l3, s3) && Step(s3, l4, s4)
    ensures Execution([s0, s1, s2, s3, s4], [l1, l2, l3, l4])
  {
  }

  lemma BothRowsOneBit(db: Db, role: RoleId, p: PermId, q: PermId)
    requires Wf(db) && MasksAgree(db) && role in db.roles && p != q && p in db.perms && q in db.perms
    requires p !in db.roles[role].perms && q !in db.roles[role].perms
    requires db.perms[p].bit.Some? && db.perms[q].bit.Some?
    ensures var first, second := AddPermission(role, p, db.roles[role].mask), AddPermission(role, q, db.roles[role].mask);
            && Accepts(db, first) && Accepts(Apply(db, first).value, second)
            && var end := Apply(Apply(db, first).value, second).value;
               && role in end.roles && p in end.roles[role].perms && q in end.roles[role].perms
               && db.perms[p].bit.value !in end.roles[role].mask && !MasksAgree(end)
  {
    var mask := db.roles[role].mask;
    var mid := Apply(db, AddPermission(role, p, mask)).value;
    AddedBitIsNew(db, db.roles[role].perms, p);
    AddedBitIsNew(db, db.roles[role].perms, q);
    var b := db.perms[p].bit.value;
    assert b in BitOf(db.perms[p]) && db.perms[q].bit.value in BitOf(db.perms[q]);
    assert b !in mask && db.perms[q].bit.value !in mask;
    var end := Apply(mid, AddPermission(role, q, mask)).value;
    assert end.perms == db.perms;
    assert b in RowBits(end, end.roles[role].perms);
  }
}
