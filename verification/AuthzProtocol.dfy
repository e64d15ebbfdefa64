/**
 * The authorization freshness protocol: commits, publishes, deliveries, resyncs and token
 * mints of a whole deployment, one atomic database or Redis operation at a time.
 *
 * Nothing is assumed about Redis for safety: a queued command may run in any order, more
 * than once or never; a message may be delivered late, out of order or not at all; a resync
 * may be overtaken between any two of its reads. Only convergence asks for publishes that
 * succeed in commit order.
 */
module AuthzProtocol {
  import opened Wrappers
  import opened Registry
  import opened Database
  import opened Delegation
  import opened AuthzCache

  type WorkerId = nat
  type MintId = nat

  // A resync has read so much and not yet replaced the cache.
  datatype Resync =
    | NoResync
    | GotVersions(versions: map<UserId, nat>)
    | GotUsers(versions: map<UserId, nat>, users: set<UserId>)
    | GotAll(view: View)

  datatype Worker = Worker(cache: View, inbox: seq<Event>, resync: Resync)

  const COLD := Worker(NOTHING_KNOWN, [], NoResync)

  // A mint between its reads: the user row first, then the roles, then the direct grants.
  // The positions say which database state each read saw.
  datatype Minting =
    | ReadUser(user: UserId, row: User, userAt: nat)
    | ReadRoles(user: UserId, row: User, userAt: nat, roleMask: Mask, rolesAt: nat)
    | ReadGrants(user: UserId, row: User, userAt: nat, roleMask: Mask, rolesAt: nat, directMask: Mask, grantsAt: nat)

  datatype Issue = Issue(token: AccessToken, userAt: nat, rolesAt: nat, grantsAt: nat, tenantAt: nat)

  // `hist` is every database state so far, the last one current; `log` the commits between.
  datatype State = State(
    hist: seq<Db>,
    log: seq<Commit>,
    pending: seq<Command>,
    mirror: View,
    workers: map<WorkerId, Worker>,
    minting: map<MintId, Minting>,
    issued: set<Issue>)

  // What one worker does by itself.
  datatype WorkerStep = Delivers(i: nat) | Misses(i: nat) | ReadsVersions | ReadsUsers | ReadsTenants | Installs | Aborts

  datatype Label =
    | Commits(commit: Commit, events: seq<Event>)
    | Performs(i: nat, again: bool)
    | Drops(i: nat)
    | Starts(w: WorkerId)
    | Works(w: WorkerId, step: WorkerStep)
    | BeginsMint(m: MintId, user: UserId)
    | Mints(m: MintId)

  function Current(s: State): Db
    requires s.hist != []
  {
    s.hist[|s.hist| - 1]
  }

  ghost predicate Enabled(s: State, l: Label) {
    s.hist != [] &&
    match l
    case Commits(c, events) =>
      && Accepts(Current(s), c)
      && Elements(events) == EventsOf(Current(s), c) && NoDuplicates(events)
    case Performs(i, _) => i < |s.pending|
    case Drops(i) => i < |s.pending|
    case Starts(w) => true
    case Works(w, step) => w in s.workers && CanWork(s.workers[w], step)
    case BeginsMint(m, u) => m !in s.minting && u in Current(s).users
    case Mints(m) => m in s.minting
  }

  predicate CanWork(x: Worker, step: WorkerStep) {
    match step
    case Delivers(i) => i < |x.inbox|
    case Misses(i) => i < |x.inbox|
    case ReadsVersions => x.resync.NoResync?
    case ReadsUsers => x.resync.GotVersions?
    case ReadsTenants => x.resync.GotUsers?
    case Installs => x.resync.GotAll?
    case Aborts => true
  }

  function Work(x: Worker, mirror: View, step: WorkerStep): Worker
    requires CanWork(x, step)
  {
    match step
    case Delivers(i) => x.(cache := Note(x.cache, x.inbox[i]), inbox := Without(x.inbox, i))
    case Misses(i) => x.(inbox := Without(x.inbox, i))
    case ReadsVersions => x.(resync := GotVersions(mirror.versions))
    case ReadsUsers => x.(resync := GotUsers(x.resync.versions, mirror.inactiveUsers))
    case ReadsTenants => x.(resync := GotAll(View(x.resync.versions, x.resync.users, mirror.inactiveTenants)))
    case Installs => x.(cache := x.resync.view, resync := NoResync)
    case Aborts => x.(resync := NoResync)
  }

  function Without<T>(s: seq<T>, i: nat): seq<T>
    requires i < |s|
  {
    s[..i] + s[i + 1..]
  }

  function Perform(s: State, c: Command): State {
    match c
    case Announce(e) =>
      s.(workers := map w | w in s.workers :: s.workers[w].(inbox := s.workers[w].inbox + [e]))
    case Store(e) => s.(mirror := Note(s.mirror, e))
  }

  ghost function Next(s: State, l: Label): State
    requires Enabled(s, l)
  {
    match l
    case Commits(c, events) =>
      s.(hist := s.hist + [Apply(Current(s), c).value], log := s.log + [c], pending := s.pending + Commands(events))
    case Performs(i, again) =>
      var t := Perform(s, s.pending[i]);
      if again then t else t.(pending := Without(s.pending, i))
    case Drops(i) => s.(pending := Without(s.pending, i))
    case Starts(w) => s.(workers := s.workers[w := COLD])
    case Works(w, step) => s.(workers := s.workers[w := Work(s.workers[w], s.mirror, step)])
    case BeginsMint(m, u) => s.(minting := s.minting[m := ReadUser(u, Current(s).users[u], |s.hist| - 1)])
    case Mints(m) =>
      var (going, done) := AdvanceMint(s.minting[m], Current(s), |s.hist| - 1);
      s.(minting := if going.Some? then s.minting[m := going.value] else s.minting - {m}, issued := s.issued + done)
  }

  // The next read of a mint, or its end: the tenant look-up and the checks of module AuthzCache.
  function AdvanceMint(r: Minting, db: Db, now: nat): (Option<Minting>, set<Issue>) {
    match r
    case ReadUser(u, row, at) => (Some(ReadRoles(u, row, at, RoleMask(db, u), now)), {})
    case ReadRoles(u, row, at, roleMask, rolesAt) =>
      (Some(ReadGrants(u, row, at, roleMask, rolesAt, DirectMask(db, u), now)), {})
    case ReadGrants(u, row, at, roleMask, rolesAt, directMask, grantsAt) =>
      match MintAccessToken(u, row, TenantOf(db, row.tenant), roleMask + directMask)
      case Success(t) => (None, {Issue(t, at, rolesAt, grantsAt, now)})
      case Failure(_) => (None, {})
  }

  function TenantOf(db: Db, tenant: Option<TenantId>): Option<Tenant> {
    if tenant.Some? && tenant.value in db.tenants then Some(db.tenants[tenant.value]) else None
  }

  // A mirror that answers for the tables: a user without an entry is at the first version.
  ghost predicate Exact(db: Db, v: View) {
    && v.versions.Keys <= db.users.Keys
    && (forall u | u in db.users ::
          db.users[u].version == if u in v.versions then v.versions[u] else FIRST_VERSION)
    && v.inactiveUsers == (set u | u in db.users && !db.users[u].active)
    && v.inactiveTenants == (set t | t in db.tenants && !db.tenants[t].active)
  }

  // A deployment that starts: synced catalog, consistent tables, a mirror that matches them.
  ghost predicate Initial(s: State) {
    && |s.hist| == 1 && s.log == [] && s.pending == []
    && Wf(s.hist[0]) && Synced(s.hist[0]) && Exact(s.hist[0], s.mirror)
    && s.workers == map[] && s.minting == map[] && s.issued == {}
  }

  ghost predicate Step(s: State, l: Label, t: State) {
    Enabled(s, l) && t == Next(s, l)
  }

  ghost predicate Chain(states: seq<State>, run: seq<Label>) {
    |states| == |run| + 1 && forall i | 0 <= i < |run| :: Step(states[i], run[i], states[i + 1])
  }

  ghost predicate Execution(states: seq<State>, run: seq<Label>) {
    Chain(states, run) && Initial(states[0])
  }

  // ------------------------------------------------------------------
  // History
  // ------------------------------------------------------------------

  ghost predicate GoodDb(db: Db) {
    Wf(db) && Synced(db)
  }

  // Each state satisfies the schema and mirrors the catalog.
  ghost predicate AllGood(hist: seq<Db>) {
    forall i | 0 <= i < |hist| :: GoodDb(hist[i])
  }

  lemma GoodStep(s: State, l: Label)
    requires AllGood(s.hist) && Enabled(s, l)
    ensures AllGood(Next(s, l).hist)
  {
    if l.Commits? {
      var db, c := Current(s), l.commit;
      assert GoodDb(db);
      ApplyKeepsWf(db, c);
      SyncedKept(db, c);
      assert GoodDb(Apply(db, c).value);
    }
  }

  lemma {:induction false} GoodInvariant(states: seq<State>, run: seq<Label>, i: nat)
    requires Execution(states, run) && i <= |run|
    ensures AllGood(states[i].hist)
  {
    if i != 0 {
      GoodInvariant(states, run, i - 1);
      assert Step(states[i - 1], run[i - 1], states[i]);
      GoodStep(states[i - 1], run[i - 1]);
    }
  }

  lemma CommitExtendsHistory(s: State, c: Commit, events: seq<Event>)
    requires HistoryOk(s.hist, s.log) && Enabled(s, Commits(c, events))
    ensures var t := Next(s, Commits(c, events)); HistoryOk(t.hist, t.log)
  {
    var t := Next(s, Commits(c, events));
    forall i | 0 <= i < |t.log| ensures Linked(t.hist, t.log, i) {
      if i < |s.log| {
        assert Linked(s.hist, s.log, i);
      }
    }
  }

  // Users never disappear and versions never go back.
  lemma {:induction false} VersionsGrow(hist: seq<Db>, log: seq<Commit>, i: nat, j: nat, u: UserId)
    requires HistoryOk(hist, log) && i <= j < |hist| && u in hist[i].users
    ensures u in hist[j].users && hist[i].users[u].version <= hist[j].users[u].version
    ensures hist[j].users[u].tenant == hist[i].users[u].tenant && hist[j].users[u].superuser == hist[i].users[u].superuser
    ensures hist[j].cat == hist[i].cat
    decreases j
  {
    if i < j {
      VersionsGrow(hist, log, i, j - 1, u);
      assert Linked(hist, log, j - 1);
      UsersAreMonotone(hist[j - 1], log[j - 1]);
      RowsAreMonotone(hist[j - 1], log[j - 1]);
    }
  }

  // What the deletions between the two states took from the user.
  function LostBetween(hist: seq<Db>, log: seq<Commit>, i: nat, j: nat, u: UserId): Mask
    requires |hist| == |log| + 1 && j < |hist|
    decreases j
  {
    if j <= i then {} else LostBetween(hist, log, i, j - 1, u) + LostBits(hist[j - 1], log[j - 1], u)
  }

  // No commit between the two states deleted a role and with it bits only it gave the user.
  ghost predicate NoneLost(hist: seq<Db>, log: seq<Commit>, i: nat, j: nat, u: UserId)
    requires |hist| == |log| + 1 && j < |hist|
  {
    forall k | i <= k < j :: LostBits(hist[k], log[k], u) == {}
  }

  lemma {:induction false} NothingLost(hist: seq<Db>, log: seq<Commit>, i: nat, j: nat, u: UserId)
    requires |hist| == |log| + 1 && j < |hist|
    ensures LostBetween(hist, log, i, j, u) == {} <==> NoneLost(hist, log, i, j, u)
    decreases j
  {
    if i < j {
      NothingLost(hist, log, i, j - 1, u);
    }
  }

  // While the version stands still so do the direct grants, and deletions are all that moves
  // the mask.
  lemma {:induction false} StableAtOneVersion(hist: seq<Db>, log: seq<Commit>, i: nat, j: nat, u: UserId)
    requires HistoryOk(hist, log) && AllGood(hist)
    requires i <= j < |hist| && u in hist[i].users && u in hist[j].users
    requires hist[i].users[u].version == hist[j].users[u].version
    ensures DirectMask(hist[j], u) == DirectMask(hist[i], u)
    ensures EffectiveMask(hist[j], u) == EffectiveMask(hist[i], u) - LostBetween(hist, log, i, j, u)
    ensures LostBetween(hist, log, i, j, u) <= EffectiveMask(hist[i], u)
    decreases j
  {
    if i < j {
      VersionsGrow(hist, log, i, j - 1, u);
      VersionsGrow(hist, log, j - 1, j, u);
      StableAtOneVersion(hist, log, i, j - 1, u);
      assert Linked(hist, log, j - 1) && GoodDb(hist[j - 1]);
      DirectMaskIsVersioned(hist[j - 1], log[j - 1], u);
      UnversionedStep(hist[j - 1], log[j - 1], u);
    }
  }

  // ------------------------------------------------------------------
  // Tokens
  // ------------------------------------------------------------------

  ghost predicate ReadAt(hist: seq<Db>, u: UserId, row: User, at: nat) {
    at < |hist| && u in hist[at].users && hist[at].users[u] == row
  }

  ghost predicate MintingOk(hist: seq<Db>, r: Minting) {
    && ReadAt(hist, r.user, r.row, r.userAt)
    && (!r.ReadUser? ==> r.userAt <= r.rolesAt < |hist| && r.roleMask == RoleMask(hist[r.rolesAt], r.user))
    && (r.ReadGrants? ==> r.rolesAt <= r.grantsAt < |hist| && r.directMask == DirectMask(hist[r.grantsAt], r.user))
  }

  ghost predicate IssueOk(hist: seq<Db>, x: Issue) {
    var t := x.token;
    && x.userAt <= x.rolesAt <= x.grantsAt <= x.tenantAt < |hist|
    && t.user in hist[x.userAt].users
    && t.version == hist[x.userAt].users[t.user].version
    && t.tenant == hist[x.userAt].users[t.user].tenant
    && t.superuser == hist[x.userAt].users[t.user].superuser
    && t.mask == RoleMask(hist[x.rolesAt], t.user) + DirectMask(hist[x.grantsAt], t.user)
    && hist[x.userAt].users[t.user].active
    && (t.tenant.Some? ==>
          t.tenant.value in hist[x.tenantAt].tenants && hist[x.tenantAt].tenants[t.tenant.value].active)
  }

  ghost predicate TokensOk(s: State) {
    && HistoryOk(s.hist, s.log)
    && (forall m | m in s.minting :: MintingOk(s.hist, s.minting[m]))
    && (forall x | x in s.issued :: IssueOk(s.hist, x))
  }

  lemma TokensOutliveCommits(s: State, c: Commit, events: seq<Event>)
    requires TokensOk(s) && Enabled(s, Commits(c, events))
    ensures TokensOk(Next(s, Commits(c, events)))
  {
    CommitExtendsHistory(s, c, events);
    var t := Next(s, Commits(c, events));
    assert forall i | 0 <= i < |s.hist| :: t.hist[i] == s.hist[i];
    forall m | m in t.minting ensures MintingOk(t.hist, t.minting[m]) {
      assert MintingOk(s.hist, s.minting[m]);
    }
    forall x | x in t.issued ensures IssueOk(t.hist, x) {
      assert IssueOk(s.hist, x);
    }
  }

  lemma MintAdvances(hist: seq<Db>, r: Minting)
    requires hist != [] && MintingOk(hist, r) && (!r.ReadUser? ==> r.rolesAt < |hist|)
    ensures var (going, done) := AdvanceMint(r, hist[|hist| - 1], |hist| - 1);
            && (going.Some? ==> MintingOk(hist, going.value))
            && (forall x | x in done :: IssueOk(hist, x))
  {
  }

  lemma TokensStep(s: State, l: Label)
    requires TokensOk(s) && Enabled(s, l)
    ensures TokensOk(Next(s, l))
  {
    match l
    case Commits(c, events) => TokensOutliveCommits(s, c, events);
    case BeginsMint(m, u) => BeginStep(s, m, u);
    case Mints(m) => MintStep(s, m);
    case Performs(i, _) => assert Next(s, l).hist == s.hist;
    case _ =>
  }

  lemma BeginStep(s: State, m: MintId, u: UserId)
    requires TokensOk(s) && Enabled(s, BeginsMint(m, u))
    ensures TokensOk(Next(s, BeginsMint(m, u)))
  {
  }

  lemma MintStep(s: State, m: MintId)
    requires TokensOk(s) && Enabled(s, Mints(m))
    ensures TokensOk(Next(s, Mints(m)))
  {
    assert MintingOk(s.hist, s.minting[m]);
    MintAdvances(s.hist, s.minting[m]);
  }

  lemma {:induction false} TokensInvariant(states: seq<State>, run: seq<Label>, i: nat)
    requires Execution(states, run) && i <= |run|
    ensures TokensOk(states[i])
  {
    if i != 0 {
      TokensInvariant(states, run, i - 1);
      assert Step(states[i - 1], run[i - 1], states[i]);
      TokensStep(states[i - 1], run[i - 1]);
    }
  }

  /**
   * Fresh-token exactness: whatever commits fell between the reads of a mint, a token at
   * its user's current version carries the current effective mask and what deletions have
   * taken from the user since the roles were read; so exactly the mask if and only if no
   * deleted role took a bit that nothing else gave the user.
   */
  lemma FreshTokenIsExact(states: seq<State>, run: seq<Label>, s: State, x: Issue)
    requires Execution(states, run) && s == states[|run|] && x in s.issued
    ensures HistoryOk(s.hist, s.log) && x.token.user in Current(s).users && x.rolesAt <= |s.log|
    ensures var u := x.token.user;
            x.token.version == Current(s).users[u].version ==>
              && EffectiveMask(Current(s), u) == x.token.mask - LostBetween(s.hist, s.log, x.rolesAt, |s.log|, u)
              && (x.token.mask == EffectiveMask(Current(s), u) <==> NoneLost(s.hist, s.log, x.rolesAt, |s.log|, u))
  {
    TokensInvariant(states, run, |run|);
    GoodInvariant(states, run, |run|);
    ExactWhenNoneLost(s, x);
  }

  lemma ExactWhenNoneLost(s: State, x: Issue)
    requires TokensOk(s) && AllGood(s.hist) && x in s.issued
    ensures x.token.user in Current(s).users && x.rolesAt <= |s.log|
    ensures var u := x.token.user;
            x.token.version == Current(s).users[u].version ==>
              && EffectiveMask(Current(s), u) == x.token.mask - LostBetween(s.hist, s.log, x.rolesAt, |s.log|, u)
              && (x.token.mask == EffectiveMask(Current(s), u) <==> NoneLost(s.hist, s.log, x.rolesAt, |s.log|, u))
  {
    IssuedUserExists(s, x);
    if x.token.version == Current(s).users[x.token.user].version {
      CarriedMask(s, x);
      LessNothing(x.token.mask, LostBetween(s.hist, s.log, x.rolesAt, |s.log|, x.token.user));
      NothingLost(s.hist, s.log, x.rolesAt, |s.log|, x.token.user);
    }
  }

  lemma IssuedUserExists(s: State, x: Issue)
    requires TokensOk(s) && x in s.issued
    ensures x.token.user in Current(s).users && x.rolesAt <= |s.log|
  {
    assert IssueOk(s.hist, x);
    VersionsGrow(s.hist, s.log, x.userAt, |s.hist| - 1, x.token.user);
  }

  lemma CarriedMask(s: State, x: Issue)
    requires TokensOk(s) && AllGood(s.hist) && x in s.issued && x.rolesAt <= |s.log|
    requires x.token.user in Current(s).users && x.token.version == Current(s).users[x.token.user].version
    ensures var u, lost := x.token.user, LostBetween(s.hist, s.log, x.rolesAt, |s.log|, x.token.user);
            EffectiveMask(Current(s), u) == x.token.mask - lost && lost <= x.token.mask
  {
    assert IssueOk(s.hist, x);
    var u, last := x.token.user, |s.hist| - 1;
    VersionsGrow(s.hist, s.log, x.userAt, x.rolesAt, u);
    VersionsGrow(s.hist, s.log, x.rolesAt, x.grantsAt, u);
    VersionsGrow(s.hist, s.log, x.grantsAt, last, u);
    StableAtOneVersion(s.hist, s.log, x.rolesAt, last, u);
    StableAtOneVersion(s.hist, s.log, x.rolesAt, x.grantsAt, u);
    assert x.token.mask == EffectiveMask(s.hist[x.rolesAt], u);
  }

  lemma LessNothing(a: Mask, b: Mask)
    requires b <= a
    ensures a - b == a <==> b == {}
  {
    if x :| x in b {
      assert x in a && x !in a - b;
    }
  }

  lemma CarriedFlag(s: State, x: Issue)
    requires TokensOk(s) && x in s.issued && s.hist != []
    ensures x.token.user in Current(s).users && x.token.superuser == Current(s).users[x.token.user].superuser
  {
    assert IssueOk(s.hist, x);
    VersionsGrow(s.hist, s.log, x.userAt, |s.hist| - 1, x.token.user);
  }

  /**
   * So the gate of a route lets such a token through exactly when the user is a superuser,
   * holds the permission, or lost it to a deletion since the roles were read.
   */
  lemma FreshTokenPassesExactly(states: seq<State>, run: seq<Label>, s: State, x: Issue, name: string)
    requires Execution(states, run) && s == states[|run|] && x in s.issued
    ensures HistoryOk(s.hist, s.log) && x.token.user in Current(s).users && x.rolesAt <= |s.log|
    ensures var db, u := Current(s), x.token.user;
            x.token.version == db.users[u].version && name in db.cat.bits && MasksAgree(db) ==>
              && (PermissionRequired(db.cat, x.token.superuser, x.token.mask, name) <==>
                    db.users[u].superuser || name in EffectivePermissions(db, u)
                    || db.cat.bits[name] in LostBetween(s.hist, s.log, x.rolesAt, |s.log|, u))
              && (db.cat.bits[name] in LostBetween(s.hist, s.log, x.rolesAt, |s.log|, u) ==>
                    name !in EffectivePermissions(db, u))
  {
    FreshTokenIsExact(states, run, s, x);
    TokensInvariant(states, run, |run|);
    GoodInvariant(states, run, |run|);
    var db, u := Current(s), x.token.user;
    assert GoodDb(db);
    if x.token.version == db.users[u].version && name in db.cat.bits && MasksAgree(db) {
      NameHeldIffBitHeld(db, u, name);
      CarriedMask(s, x);
      CarriedFlag(s, x);
    }
  }

  lemma {:induction false} HistoryAgreesExactly(hist: seq<Db>, log: seq<Commit>, n: nat)
    requires HistoryOk(hist, log) && AllGood(hist) && n < |hist| && MasksAgree(hist[0])
    requires forall k | 0 <= k < |log| :: Faithful(hist[k], log[k])
    ensures (forall i | 0 <= i <= n :: MasksAgree(hist[i])) <==> forall k | 0 <= k < n :: ReadIsCurrent(hist[k], log[k])
  {
    if n != 0 {
      HistoryAgreesExactly(hist, log, n - 1);
      assert Linked(hist, log, n - 1) && GoodDb(hist[n - 1]);
      if MasksAgree(hist[n - 1]) {
        AgreementKeptExactly(hist[n - 1], log[n - 1]);
      }
    }
  }

  // Masks and rows agree in every state so far exactly when every edit was made on a current
  // mask, where they agreed at first and roles are created with the mask of their rows.
  lemma EditsAgreeExactly(states: seq<State>, run: seq<Label>, s: State)
    requires Execution(states, run) && s == states[|run|]
    ensures HistoryOk(s.hist, s.log)
    ensures MasksAgree(s.hist[0]) && (forall k | 0 <= k < |s.log| :: Faithful(s.hist[k], s.log[k])) ==>
              ((forall i | 0 <= i < |s.hist| :: MasksAgree(s.hist[i]))
               <==> forall k | 0 <= k < |s.log| :: ReadIsCurrent(s.hist[k], s.log[k]))
  {
    TokensInvariant(states, run, |run|);
    GoodInvariant(states, run, |run|);
    if MasksAgree(s.hist[0]) && forall k | 0 <= k < |s.log| :: Faithful(s.hist[k], s.log[k]) {
      HistoryAgreesExactly(s.hist, s.log, |s.log|);
    }
  }

  // Nobody is minted a token unless their account was active when its row was read, and
  // their tenant when it was looked up, after all the other reads.
  lemma MintedOnlyWhileActive(states: seq<State>, run: seq<Label>, s: State, x: Issue)
    requires Execution(states, run) && s == states[|run|] && x in s.issued
    ensures var t := x.token;
            && x.userAt <= x.tenantAt < |s.hist|
            && t.user in s.hist[x.userAt].users && s.hist[x.userAt].users[t.user].active
            && t.tenant == s.hist[x.userAt].users[t.user].tenant
            && (t.tenant.Some? ==>
                  && t.tenant.value in s.hist[x.tenantAt].tenants
                  && s.hist[x.tenantAt].tenants[t.tenant.value].active)
  {
    TokensInvariant(states, run, |run|);
    assert IssueOk(s.hist, x);
  }

  // Deleting a role takes its bits from a user without moving the version.
  lemma DeletionIsSilent(db: Db, r: RoleId, u: UserId, b: nat)
    requires Wf(db) && r in db.roles && (u, r) in db.userRoles && b in db.roles[r].mask
    requires b !in DirectMask(db, u) && forall q | (u, q) in db.userRoles && q in db.roles && q != r :: b !in db.roles[q].mask
    ensures u in db.users && Accepts(db, DeleteRole(r))
    ensures var next := Apply(db, DeleteRole(r)).value;
            && next.users[u].version == db.users[u].version
            && b in EffectiveMask(db, u) && b !in EffectiveMask(next, u)
  {
  }

  /**
   * Bounded staleness: whatever was dropped, delayed, reordered or overwritten, a bit a
   * worker accepts was really held at some moment at which the user's version was at least
   * the one the worker has cached.
   */
  lemma AcceptedBitWasHeld(states: seq<State>, run: seq<Label>, s: State, w: WorkerId, x: Issue, b: nat)
    returns (at: nat)
    requires Execution(states, run) && s == states[|run|] && x in s.issued && b in x.token.mask
    requires w in s.workers && Authenticate(s.workers[w].cache, Some(x.token)) == Accepted
    ensures x.userAt <= at < |s.hist| && x.token.user in s.hist[at].users
    ensures b in EffectiveMask(s.hist[at], x.token.user)
    ensures var known := s.workers[w].cache.versions;
            x.token.user in known ==> known[x.token.user] <= s.hist[at].users[x.token.user].version
  {
    TokensInvariant(states, run, |run|);
    at := HeldWhenRead(s, x, b);
  }

  lemma HeldWhenRead(s: State, x: Issue, b: nat) returns (at: nat)
    requires TokensOk(s) && x in s.issued && b in x.token.mask
    ensures x.userAt <= at < |s.hist| && x.token.user in s.hist[at].users
    ensures b in EffectiveMask(s.hist[at], x.token.user)
    ensures x.token.version <= s.hist[at].users[x.token.user].version
  {
    assert IssueOk(s.hist, x);
    at := if b in RoleMask(s.hist[x.rolesAt], x.token.user) then x.rolesAt else x.grantsAt;
    VersionsGrow(s.hist, s.log, x.userAt, at, x.token.user);
  }

  // ------------------------------------------------------------------
  // The cache is never ahead of the tables
  // ------------------------------------------------------------------

  ghost predicate VersionsBehind(db: Db, versions: map<UserId, nat>) {
    forall u | u in versions :: u in db.users && FIRST_VERSION <= versions[u] <= db.users[u].version
  }

  ghost predicate EventBehind(db: Db, e: Event) {
    e.PermVersion? ==> e.user in db.users && FIRST_VERSION <= e.version <= db.users[e.user].version
  }

  ghost predicate WorkerBehind(db: Db, x: Worker) {
    && VersionsBehind(db, x.cache.versions)
    && (forall e | e in x.inbox :: EventBehind(db, e))
    && (match x.resync
        case NoResync => true
        case GotVersions(v) => VersionsBehind(db, v)
        case GotUsers(v, _) => VersionsBehind(db, v)
        case GotAll(view) => VersionsBehind(db, view.versions))
  }

  ghost predicate AllBehind(s: State) {
    && s.hist != []
    && VersionsBehind(Current(s), s.mirror.versions)
    && (forall c | c in s.pending :: EventBehind(Current(s), c.event))
    && (forall w | w in s.workers :: WorkerBehind(Current(s), s.workers[w]))
  }

  lemma {:induction false} CommandsCarryEvents(events: seq<Event>)
    ensures forall c | c in Commands(events) :: c.event in events
  {
    if events != [] {
      CommandsCarryEvents(events[..|events| - 1]);
    }
  }

  lemma WorkerStaysBehind(db: Db, next: Db, x: Worker)
    requires WorkerBehind(db, x)
    requires forall u | u in db.users :: u in next.users && db.users[u].version <= next.users[u].version
    ensures WorkerBehind(next, x)
  {
  }

  lemma CommitStaysBehind(s: State, c: Commit, events: seq<Event>)
    requires AllBehind(s) && Enabled(s, Commits(c, events))
    ensures AllBehind(Next(s, Commits(c, events)))
  {
    var t := Next(s, Commits(c, events));
    var db, next := Current(s), Current(t);
    UsersAreMonotone(db, c);
    CommandsCarryEvents(events);
    forall w | w in t.workers ensures WorkerBehind(next, t.workers[w]) {
      WorkerStaysBehind(db, next, s.workers[w]);
    }
    forall d | d in t.pending ensures EventBehind(next, d.event) {
      if d !in s.pending {
        assert d.event in Elements(events);
      }
    }
  }

  lemma PerformStaysBehind(s: State, i: nat, again: bool)
    requires AllBehind(s) && Enabled(s, Performs(i, again))
    ensures AllBehind(Next(s, Performs(i, again)))
  {
    assert s.pending[i] in s.pending;
    var e := s.pending[i].event;
    assert EventBehind(Current(s), e);
    var t := Perform(s, s.pending[i]);
    assert AllBehind(t) by {
      forall w | w in t.workers ensures WorkerBehind(Current(s), t.workers[w]) {
        assert WorkerBehind(Current(s), s.workers[w]);
      }
    }
    assert forall c | c in Without(s.pending, i) :: c in s.pending;
  }

  lemma WorkStaysBehind(db: Db, x: Worker, mirror: View, step: WorkerStep)
    requires WorkerBehind(db, x) && VersionsBehind(db, mirror.versions) && CanWork(x, step)
    ensures WorkerBehind(db, Work(x, mirror, step))
  {
    if step.Delivers? {
      assert x.inbox[step.i] in x.inbox;
    }
  }

  lemma BehindStep(s: State, l: Label)
    requires AllBehind(s) && Enabled(s, l)
    ensures AllBehind(Next(s, l))
  {
    match l
    case Commits(c, events) => CommitStaysBehind(s, c, events);
    case Performs(i, again) => PerformStaysBehind(s, i, again);
    case Works(w, step) =>
      assert WorkerBehind(Current(s), s.workers[w]);
      WorkStaysBehind(Current(s), s.workers[w], s.mirror, step);
    case _ =>
  }

  lemma {:induction false} NeverAhead(states: seq<State>, run: seq<Label>, i: nat)
    requires Execution(states, run) && i <= |run|
    ensures AllBehind(states[i])
  {
    if i != 0 {
      NeverAhead(states, run, i - 1);
      assert Step(states[i - 1], run[i - 1], states[i]);
      BehindStep(states[i - 1], run[i - 1]);
    }
  }

  // A token at the current version is never called stale, by any worker.
  lemma CurrentTokenNeverStale(states: seq<State>, run: seq<Label>, s: State, w: WorkerId, t: AccessToken)
    requires Execution(states, run) && s == states[|run|] && w in s.workers && s.hist != []
    requires t.user in Current(s).users && t.version == Current(s).users[t.user].version
    ensures Authenticate(s.workers[w].cache, Some(t)) != StaleToken
  {
    NeverAhead(states, run, |run|);
    assert WorkerBehind(Current(s), s.workers[w]);
  }
}
