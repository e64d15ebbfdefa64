/**
 * When the caches converge: what has to reach Redis, and what has to be true of it, for a
 * worker's answers to become the tables' answers.
 */
module AuthzConvergence {
  import opened Wrappers
  import opened Registry
  import opened Database
  import opened Delegation
  import opened AuthzCache
  import opened AuthzProtocol

  // ------------------------------------------------------------------
  // What was published, what landed, and what the tables say
  // ------------------------------------------------------------------

  // The events of the commits so far, in commit order.
  function Published(run: seq<Label>, n: nat): seq<Event>
    requires n <= |run|
  {
    if n == 0 then [] else Published(run, n - 1) + PublishedBy(run[n - 1])
  }

  function PublishedBy(l: Label): seq<Event> {
    if l.Commits? then l.events else []
  }

  // The events of the durable writes performed so far, in the order they landed.
  function Landed(states: seq<State>, run: seq<Label>, n: nat): seq<Event>
    requires n <= |run| && |run| < |states|
  {
    if n == 0 then [] else Landed(states, run, n - 1) + LandedBy(states[n - 1], run[n - 1])
  }

  function LandedBy(s: State, l: Label): seq<Event> {
    if l.Performs? && l.i < |s.pending| && s.pending[l.i].Store? then [s.pending[l.i].event] else []
  }

  // What one lookup of the cache is about.
  datatype Key = VersionKey(user: UserId) | UserKey(user: UserId) | TenantKey(tenant: TenantId)

  function KeyOf(e: Event): Key {
    match e
    case PermVersion(u, _) => VersionKey(u)
    case UserStatus(u, _) => UserKey(u)
    case TenantStatus(t, _) => TenantKey(t)
  }

  // What a view says about a key, as the event that would have said it.
  function Reading(v: View, k: Key): Event {
    match k
    case VersionKey(u) => PermVersion(u, if u in v.versions then v.versions[u] else FIRST_VERSION)
    case UserKey(u) => UserStatus(u, u !in v.inactiveUsers)
    case TenantKey(t) => TenantStatus(t, t !in v.inactiveTenants)
  }

  // What the tables say about it; whoever is not there yet will start active at version one.
  function Told(db: Db, k: Key): Event {
    match k
    case VersionKey(u) => PermVersion(u, if u in db.users then db.users[u].version else FIRST_VERSION)
    case UserKey(u) => UserStatus(u, u in db.users ==> db.users[u].active)
    case TenantKey(t) => TenantStatus(t, t in db.tenants ==> db.tenants[t].active)
  }

  // The last of the events about a key, or what was said before any of them.
  function LastAbout(before: Event, events: seq<Event>, k: Key): Event {
    if events == [] then before
    else if KeyOf(events[|events| - 1]) == k then events[|events| - 1]
    else LastAbout(before, events[..|events| - 1], k)
  }

  lemma {:induction false} LastAboutAppends(before: Event, a: seq<Event>, b: seq<Event>, k: Key)
    ensures LastAbout(before, a + b, k) == LastAbout(LastAbout(before, a, k), b, k)
    decreases |b|
  {
    if b == [] {
      assert a + b == a;
    } else {
      assert (a + b)[..|a + b| - 1] == a + b[..|b| - 1];
      LastAboutAppends(before, a, b[..|b| - 1], k);
    }
  }

  // Events about a key that all say the same.
  lemma {:induction false} LastAboutAgreed(before: Event, events: seq<Event>, k: Key, e: Event)
    requires forall f | f in events && KeyOf(f) == k :: f == e
    ensures LastAbout(before, events, k) == if exists f :: f in events && KeyOf(f) == k then e else before
  {
    if events != [] {
      LastAboutAgreed(before, events[..|events| - 1], k, e);
      assert events == events[..|events| - 1] + [events[|events| - 1]];
    }
  }

  // ------------------------------------------------------------------
  // The mirror says what landed last
  // ------------------------------------------------------------------

  lemma MirrorSaysLanded(states: seq<State>, run: seq<Label>, n: nat, k: Key)
    requires Chain(states, run) && n <= |run|
    ensures Reading(states[n].mirror, k) == LastAbout(Reading(states[0].mirror, k), Landed(states, run, n), k)
  {
    forall i | 0 <= i < |run| ensures LandsOne(states, run, i, k) {
      MirrorStepAt(states, run, i, k);
    }
    LandedAddsUp(states, run, n, k);
  }

  ghost predicate LandsOne(states: seq<State>, run: seq<Label>, i: nat, k: Key)
    requires i < |run| && |run| < |states|
  {
    Reading(states[i + 1].mirror, k) == LastAbout(Reading(states[i].mirror, k), LandedBy(states[i], run[i]), k)
  }

  lemma {:induction false} LandedAddsUp(states: seq<State>, run: seq<Label>, n: nat, k: Key)
    requires n <= |run| && |run| < |states| && forall i | 0 <= i < |run| :: LandsOne(states, run, i, k)
    ensures Reading(states[n].mirror, k) == LastAbout(Reading(states[0].mirror, k), Landed(states, run, n), k)
  {
    if n != 0 {
      LandedAddsUp(states, run, n - 1, k);
      assert LandsOne(states, run, n - 1, k);
      LastAboutAppends(Reading(states[0].mirror, k), Landed(states, run, n - 1), LandedBy(states[n - 1], run[n - 1]), k);
    }
  }

  lemma MirrorStepAt(states: seq<State>, run: seq<Label>, i: nat, k: Key)
    requires Chain(states, run) && i < |run|
    ensures LandsOne(states, run, i, k)
  {
    MirrorStep(states[i], run[i], states[i + 1], k);
  }

  lemma MirrorStep(s: State, l: Label, t: State, k: Key)
    requires Step(s, l, t)
    ensures Reading(t.mirror, k) == LastAbout(Reading(s.mirror, k), LandedBy(s, l), k)
  {
    MirrorNotes(s, l, t);
    if LandedBy(s, l) != [] {
      NoteSays(s.mirror, LandedBy(s, l)[0], k);
    }
  }

  lemma MirrorNotes(s: State, l: Label, t: State)
    requires Step(s, l, t)
    ensures t.mirror == if LandedBy(s, l) == [] then s.mirror else Note(s.mirror, LandedBy(s, l)[0])
  {
  }

  lemma NoteSays(v: View, e: Event, k: Key)
    ensures Reading(Note(v, e), k) == if KeyOf(e) == k then e else Reading(v, k)
  {
  }

  // ------------------------------------------------------------------
  // The tables say what was published last, if that was true
  // ------------------------------------------------------------------

  // The commit assigns the active flag this key is about.
  predicate IsStatusOf(c: Commit, k: Key) {
    || (c.SetUserActive? && k == UserKey(c.user))
    || (c.SetTenantActive? && k == TenantKey(c.tenant))
  }

  // A status commit announces what was asked for. The column says so afterwards unless the
  // assignment changed nothing about the loaded object while the column had moved.
  predicate WroteWhatItSaid(db: Db, c: Commit)
    requires Accepts(db, c)
  {
    match c
    case SetUserActive(u, active, was) => active == was ==> db.users[u].active == was
    case SetTenantActive(t, active, was) => active == was ==> db.tenants[t].active == was
    case _ => true
  }

  lemma StatusTold(db: Db, c: Commit, events: seq<Event>, before: Event, k: Key)
    requires Accepts(db, c) && Elements(events) == EventsOf(db, c) && IsStatusOf(c, k)
    ensures LastAbout(before, events, k) == Told(Apply(db, c).value, k) <==> WroteWhatItSaid(db, c)
  {
    var e := if c.SetUserActive? then UserStatus(c.user, c.active) else TenantStatus(c.tenant, c.active);
    assert e in Elements(events);
    assert forall f | f in events :: f in Elements(events);
    LastAboutAgreed(before, events, k, e);
  }

  // Every other commit says nothing about the flag and leaves it alone.
  lemma StatusKept(db: Db, c: Commit, events: seq<Event>, before: Event, k: Key)
    requires Accepts(db, c) && Elements(events) == EventsOf(db, c) && !IsStatusOf(c, k) && !k.VersionKey?
    ensures LastAbout(before, events, k) == before && Told(Apply(db, c).value, k) == Told(db, k)
  {
    forall f | f in events ensures KeyOf(f) != k {
      assert f in Elements(events);
    }
    LastAboutAgreed(before, events, k, before);
  }

  // Versions are announced as they are.
  lemma VersionTold(db: Db, c: Commit, events: seq<Event>, u: UserId)
    requires Accepts(db, c) && Elements(events) == EventsOf(db, c)
    ensures LastAbout(Told(db, VersionKey(u)), events, VersionKey(u)) == Told(Apply(db, c).value, VersionKey(u))
  {
    var e := Told(Apply(db, c).value, VersionKey(u));
    forall f | f in events && KeyOf(f) == VersionKey(u) ensures f == e {
      assert f in Elements(events);
    }
    LastAboutAgreed(Told(db, VersionKey(u)), events, VersionKey(u), e);
    if e != Told(db, VersionKey(u)) {
      assert e in EventsOf(db, c) && e in Elements(events);
    }
  }

  // The last status commit about the key so far, if any, wrote what it said.
  predicate LastOneTrue(states: seq<State>, run: seq<Label>, n: nat, k: Key)
    requires n <= |run| && |run| < |states|
  {
    n == 0 ||
    if IsStatusStep(run[n - 1], k) then SaidTrue(states[n - 1], run[n - 1]) else LastOneTrue(states, run, n - 1, k)
  }

  predicate IsStatusStep(l: Label, k: Key) {
    l.Commits? && IsStatusOf(l.commit, k)
  }

  predicate SaidTrue(s: State, l: Label)
    requires l.Commits?
  {
    s.hist != [] && Accepts(Current(s), l.commit) && WroteWhatItSaid(Current(s), l.commit)
  }

  lemma {:induction false} VersionsAreNeverFalse(states: seq<State>, run: seq<Label>, n: nat, u: UserId)
    requires n <= |run| && |run| < |states|
    ensures LastOneTrue(states, run, n, VersionKey(u))
  {
    if n != 0 {
      VersionsAreNeverFalse(states, run, n - 1, u);
    }
  }

  // The tables say about a key what was published last exactly when that was true.
  lemma PublishedIsTold(states: seq<State>, run: seq<Label>, n: nat, k: Key)
    requires Chain(states, run) && n <= |run| && states[0].hist != []
    requires Reading(states[0].mirror, k) == Told(Current(states[0]), k)
    ensures states[n].hist != []
    ensures LastAbout(Reading(states[0].mirror, k), Published(run, n), k) == Told(Current(states[n]), k)
            <==> LastOneTrue(states, run, n, k)
  {
    forall i | 0 <= i < |run| ensures TellsOne(states, run, i, k) {
      assert Step(states[i], run[i], states[i + 1]);
      forall said | k.VersionKey? ==> said == Told(Current(states[i]), k)
        ensures LastAbout(said, PublishedBy(run[i]), k) == Told(Current(states[i + 1]), k)
                <==> if IsStatusStep(run[i], k) then SaidTrue(states[i], run[i]) else said == Told(Current(states[i]), k)
      {
        ToldStep(states[i], run[i], states[i + 1], said, k);
      }
      HistoryStays(states[i], run[i], states[i + 1]);
    }
    ToldAddsUp(states, run, n, k);
  }

  lemma HistoryStays(s: State, l: Label, t: State)
    requires Step(s, l, t)
    ensures s.hist != [] && t.hist != []
  {
  }

  // Over one step: a status commit about the key settles what is said of it, any other step
  // leaves it as true or false as it was.
  ghost predicate TellsOne(states: seq<State>, run: seq<Label>, i: nat, k: Key)
    requires i < |run| && |run| < |states|
  {
    && states[i].hist != [] && states[i + 1].hist != []
    && forall said | k.VersionKey? ==> said == Told(Current(states[i]), k) ::
         LastAbout(said, PublishedBy(run[i]), k) == Told(Current(states[i + 1]), k)
         <==> if IsStatusStep(run[i], k) then SaidTrue(states[i], run[i]) else said == Told(Current(states[i]), k)
  }

  lemma {:induction false} ToldAddsUp(states: seq<State>, run: seq<Label>, n: nat, k: Key)
    requires n <= |run| && |run| < |states| && states[0].hist != []
    requires forall i | 0 <= i < |run| :: TellsOne(states, run, i, k)
    requires Reading(states[0].mirror, k) == Told(Current(states[0]), k)
    ensures states[n].hist != []
    ensures LastAbout(Reading(states[0].mirror, k), Published(run, n), k) == Told(Current(states[n]), k)
            <==> LastOneTrue(states, run, n, k)
  {
    if n != 0 {
      ToldAddsUp(states, run, n - 1, k);
      LastAboutAppends(Reading(states[0].mirror, k), Published(run, n - 1), PublishedBy(run[n - 1]), k);
      if k.VersionKey? {
        VersionsAreNeverFalse(states, run, n - 1, k.user);
      }
      assert TellsOne(states, run, n - 1, k);
    }
  }

  lemma ToldStep(s: State, l: Label, t: State, said: Event, k: Key)
    requires Step(s, l, t) && (k.VersionKey? ==> said == Told(Current(s), k))
    ensures t.hist != []
    ensures LastAbout(said, PublishedBy(l), k) == Told(Current(t), k)
            <==> if IsStatusStep(l, k) then SaidTrue(s, l) else said == Told(Current(s), k)
  {
    if l.Commits? {
      if IsStatusOf(l.commit, k) {
        StatusTold(Current(s), l.commit, l.events, said, k);
      } else if k.VersionKey? {
        VersionTold(Current(s), l.commit, l.events, k.user);
      } else {
        StatusKept(Current(s), l.commit, l.events, said, k);
      }
    } else {
      TablesUnmoved(s, l);
    }
  }

  lemma TablesUnmoved(s: State, l: Label)
    requires Enabled(s, l) && !l.Commits?
    ensures Next(s, l).hist == s.hist
  {
  }

  lemma ExactReads(db: Db, v: View, k: Key)
    requires Exact(db, v)
    ensures Reading(v, k) == Told(db, k)
  {
  }

  // Whoever assigns a flag on a current copy writes what they say.
  lemma CurrentCopiesAreTrue(db: Db, c: Commit)
    requires Accepts(db, c)
    requires c.SetUserActive? ==> c.wasActive == db.users[c.user].active
    requires c.SetTenantActive? ==> c.wasActive == db.tenants[c.tenant].active
    ensures WroteWhatItSaid(db, c)
  {
  }

  // ------------------------------------------------------------------
  // When a view answers as the tables do
  // ------------------------------------------------------------------

  // A token the service could have minted for this user at some version up to the current.
  ghost predicate Plausible(db: Db, t: AccessToken) {
    && t.user in db.users && t.tenant == db.users[t.user].tenant && TenantExists(db, t.tenant)
    && FIRST_VERSION <= t.version <= db.users[t.user].version
  }

  ghost predicate AnswersMatch(db: Db, v: View) {
    forall t | Plausible(db, t) :: Authenticate(v, Some(t)) == AuthenticateFromTables(db, t)
  }

  // The keys an answer can depend on: a version does not show while its user or their
  // tenant is deactivated, nor a tenant without active users.
  ghost predicate Shown(db: Db, k: Key) {
    match k
    case UserKey(u) => u in db.users
    case TenantKey(t) => exists u :: u in db.users && db.users[u].active && db.users[u].tenant == Some(t)
    case VersionKey(u) =>
      && u in db.users && db.users[u].active
      && (db.users[u].tenant.Some? ==> db.users[u].tenant.value in db.tenants && db.tenants[db.users[u].tenant.value].active)
  }

  function TokenAt(db: Db, u: UserId, version: nat): AccessToken
    requires u in db.users
  {
    AccessToken(u, db.users[u].tenant, db.users[u].superuser, {}, version)
  }

  lemma MatchingAnswersShowKeys(db: Db, v: View, k: Key)
    requires RowsResolve(db) && VersionsBehind(db, v.versions) && AnswersMatch(db, v) && Shown(db, k)
    ensures Reading(v, k) == Told(db, k)
  {
    match k
    case UserKey(u) =>
      assert Plausible(db, TokenAt(db, u, db.users[u].version));
    case TenantKey(t) =>
      var u :| u in db.users && db.users[u].active && db.users[u].tenant == Some(t);
      assert Plausible(db, TokenAt(db, u, db.users[u].version));
    case VersionKey(u) =>
      var version := db.users[u].version;
      assert Plausible(db, TokenAt(db, u, version));
      if FIRST_VERSION < version {
        assert Plausible(db, TokenAt(db, u, version - 1));
      }
  }

  lemma SameKeysSameAnswer(db: Db, v: View, t: AccessToken)
    requires (forall k | Shown(db, k) :: Reading(v, k) == Told(db, k)) && Plausible(db, t)
    ensures Authenticate(v, Some(t)) == AuthenticateFromTables(db, t)
  {
    var u := t.user;
    assert Shown(db, UserKey(u)) && Reading(v, UserKey(u)) == Told(db, UserKey(u));
    if db.users[u].active {
      if t.tenant.Some? {
        var k := TenantKey(t.tenant.value);
        assert Shown(db, k) && Reading(v, k) == Told(db, k);
      }
      if t.tenant.None? || db.tenants[t.tenant.value].active {
        assert Shown(db, VersionKey(u)) && Reading(v, VersionKey(u)) == Told(db, VersionKey(u));
      }
    }
  }

  lemma AnswersMatchExactly(db: Db, v: View)
    requires RowsResolve(db) && VersionsBehind(db, v.versions)
    ensures AnswersMatch(db, v) <==> forall k | Shown(db, k) :: Reading(v, k) == Told(db, k)
  {
    if AnswersMatch(db, v) {
      forall k | Shown(db, k) ensures Reading(v, k) == Told(db, k) {
        MatchingAnswersShowKeys(db, v, k);
      }
    }
    if forall k | Shown(db, k) :: Reading(v, k) == Told(db, k) {
      forall t | Plausible(db, t) ensures Authenticate(v, Some(t)) == AuthenticateFromTables(db, t) {
        SameKeysSameAnswer(db, v, t);
      }
    }
  }

  // Every token ever minted is one the answers above are about.
  lemma MintedIsPlausible(s: State, x: Issue)
    requires TokensOk(s) && AllGood(s.hist) && x in s.issued
    ensures Plausible(Current(s), x.token)
  {
    assert IssueOk(s.hist, x);
    VersionsGrow(s.hist, s.log, x.userAt, |s.hist| - 1, x.token.user);
    assert GoodDb(s.hist[x.userAt]) && GoodDb(Current(s));
  }

  // ------------------------------------------------------------------
  // Settled stretches
  // ------------------------------------------------------------------

  // Nothing commits and the worker is not restarted; anything else may happen.
  predicate Quiet(w: WorkerId, l: Label) {
    match l
    case Commits(_, _) => false
    case Starts(v) => v != w
    case _ => true
  }

  // The published state has settled: no write queued, no message waiting at the worker.
  ghost predicate Settled(s: State, w: WorkerId) {
    s.pending == [] && w in s.workers && s.workers[w].inbox == []
  }

  // A resync of the worker under way has only read the settled mirror.
  ghost predicate ResyncReads(x: Worker, mirror: View) {
    match x.resync
    case NoResync => true
    case GotVersions(versions) => versions == mirror.versions
    case GotUsers(versions, users) => versions == mirror.versions && users == mirror.inactiveUsers
    case GotAll(view) => view == mirror
  }

  lemma QuietStep(s: State, l: Label, w: WorkerId)
    requires s.hist != [] && Settled(s, w) && ResyncReads(s.workers[w], s.mirror) && Enabled(s, l) && Quiet(w, l)
    ensures var t := Next(s, l);
            && t.hist == s.hist && t.mirror == s.mirror && Settled(t, w) && ResyncReads(t.workers[w], t.mirror)
            && (l == Works(w, Installs) ==> t.workers[w].cache == t.mirror)
            && (s.workers[w].cache == s.mirror ==> t.workers[w].cache == t.mirror)
  {
  }

  lemma {:induction false} QuietRun(states: seq<State>, run: seq<Label>, w: WorkerId, start: nat, stop: nat)
    requires Chain(states, run) && start <= stop <= |run|
    requires forall k | start <= k < stop :: Quiet(w, run[k])
    requires states[start].hist != [] && Settled(states[start], w)
    requires ResyncReads(states[start].workers[w], states[start].mirror)
    ensures var s, t := states[start], states[stop];
            && t.hist == s.hist && t.mirror == s.mirror && Settled(t, w) && ResyncReads(t.workers[w], t.mirror)
            && ((exists k :: start <= k < stop && run[k] == Works(w, Installs)) ==> t.workers[w].cache == t.mirror)
            && (s.workers[w].cache == s.mirror ==> t.workers[w].cache == t.mirror)
    decreases stop
  {
    if start != stop {
      QuietRun(states, run, w, start, stop - 1);
      assert Step(states[stop - 1], run[stop - 1], states[stop]);
      QuietStep(states[stop - 1], run[stop - 1], w);
    }
  }

  // About each key that shows, the last durable write that landed says what the tables say.
  ghost predicate LastOnesLanded(states: seq<State>, run: seq<Label>, n: nat)
    requires n <= |run| && |run| < |states| && states[n].hist != []
  {
    forall k | Shown(Current(states[n]), k) ::
      LastAbout(Reading(states[0].mirror, k), Landed(states, run, n), k) == Told(Current(states[n]), k)
  }

  lemma LandedIsRead(states: seq<State>, run: seq<Label>, n: nat)
    requires Chain(states, run) && n <= |run| && states[n].hist != []
    ensures LastOnesLanded(states, run, n)
            <==> forall k | Shown(Current(states[n]), k) :: Reading(states[n].mirror, k) == Told(Current(states[n]), k)
  {
    forall k | Shown(Current(states[n]), k)
      ensures Reading(states[n].mirror, k) == LastAbout(Reading(states[0].mirror, k), Landed(states, run, n), k)
    {
      MirrorSaysLanded(states, run, n, k);
    }
  }

  /**
   * Exactly when a resync cures: from a settled moment on, one successful resync leaves the
   * worker answering for every plausible token as the tables do if and only if, for each
   * key that shows, the last durable write that landed says what the tables say; and so it
   * stays until the next commit.
   */
  lemma SettledAnswers(states: seq<State>, run: seq<Label>, w: WorkerId, start: nat, installed: nat)
    requires Execution(states, run) && start <= installed < |run| && forall k | start <= k < |run| :: Quiet(w, run[k])
    requires states[start].hist != [] && Settled(states[start], w) && states[start].workers[w].resync.NoResync?
    requires run[installed] == Works(w, Installs)
    ensures var s := states[|run|];
            && w in s.workers && s.hist != []
            && (AnswersMatch(Current(s), s.workers[w].cache) <==> LastOnesLanded(states, run, |run|))
  {
    var s := states[|run|];
    QuietRun(states, run, w, start, |run|);
    NeverAhead(states, run, |run|);
    GoodInvariant(states, run, |run|);
    assert GoodDb(Current(s));
    AnswersMatchExactly(Current(s), s.mirror);
    LandedIsRead(states, run, |run|);
  }

  // ------------------------------------------------------------------
  // Publishes in commit order
  // ------------------------------------------------------------------

  // Publishes succeed, and run in the order they were queued.
  predicate InOrder(l: Label) {
    match l
    case Performs(i, again) => i == 0 && !again
    case Drops(_) => false
    case _ => true
  }

  // The events of the durable writes still queued.
  function Queued(cs: seq<Command>): seq<Event> {
    if cs == [] then [] else (if cs[0].Store? then [cs[0].event] else []) + Queued(cs[1..])
  }

  lemma {:induction false} QueuedAppends(a: seq<Command>, b: seq<Command>)
    ensures Queued(a + b) == Queued(a) + Queued(b)
    decreases |a|
  {
    if a == [] {
      assert a + b == b && Queued(a) == [];
    } else {
      var first := if a[0].Store? then [a[0].event] else [];
      assert (a + b)[0] == a[0] && (a + b)[1..] == a[1..] + b;
      QueuedAppends(a[1..], b);
      assert Queued(a + b) == first + (Queued(a[1..]) + Queued(b));
      assert first + (Queued(a[1..]) + Queued(b)) == (first + Queued(a[1..])) + Queued(b);
    }
  }

  lemma {:induction false} CommandsQueue(events: seq<Event>)
    ensures Queued(Commands(events)) == events
  {
    if events != [] {
      var last := events[|events| - 1];
      CommandsQueue(events[..|events| - 1]);
      QueuedAppends(Commands(events[..|events| - 1]), [Announce(last), Store(last)]);
      assert [Announce(last), Store(last)][1..] == [Store(last)];
      assert Queued([Store(last)]) == [last];
    }
  }

  // What landed is what was published, but for what is still queued.
  lemma InOrderLands(states: seq<State>, run: seq<Label>, n: nat)
    requires Chain(states, run) && states[0].pending == [] && n <= |run| && forall k | 0 <= k < |run| :: InOrder(run[k])
    ensures Published(run, n) == Landed(states, run, n) + Queued(states[n].pending)
  {
    forall i | 0 <= i < |run| ensures QueuesOne(states, run, i) {
      assert InOrder(run[i]);
      InOrderStep(states[i], run[i], states[i + 1]);
    }
    PublishedAddsUp(states, run, n);
  }

  ghost predicate QueuesOne(states: seq<State>, run: seq<Label>, i: nat)
    requires i < |run| && |run| < |states|
  {
    Queued(states[i].pending) + PublishedBy(run[i]) == LandedBy(states[i], run[i]) + Queued(states[i + 1].pending)
  }

  lemma {:induction false} PublishedAddsUp(states: seq<State>, run: seq<Label>, n: nat)
    requires n <= |run| && |run| < |states| && states[0].pending == []
    requires forall i | 0 <= i < |run| :: QueuesOne(states, run, i)
    ensures Published(run, n) == Landed(states, run, n) + Queued(states[n].pending)
  {
    if n != 0 {
      PublishedAddsUp(states, run, n - 1);
      assert QueuesOne(states, run, n - 1);
      Regroup(Landed(states, run, n - 1), Queued(states[n - 1].pending), PublishedBy(run[n - 1]),
              LandedBy(states[n - 1], run[n - 1]), Queued(states[n].pending));
    }
  }

  lemma Regroup(landed: seq<Event>, queued: seq<Event>, published: seq<Event>, written: seq<Event>, rest: seq<Event>)
    requires queued + published == written + rest
    ensures (landed + queued) + published == (landed + written) + rest
  {
    assert (landed + queued) + published == landed + (queued + published);
    assert landed + (written + rest) == (landed + written) + rest;
  }

  lemma InOrderStep(s: State, l: Label, t: State)
    requires Step(s, l, t) && InOrder(l)
    ensures Queued(s.pending) + PublishedBy(l) == LandedBy(s, l) + Queued(t.pending)
  {
    match l
    case Commits(_, events) =>
      QueuedAppends(s.pending, Commands(events));
      CommandsQueue(events);
    case Performs(_, _) => assert Without(s.pending, 0) == s.pending[1..];
    case _ =>
  }

  // About each key that shows, the last status commit wrote what it said.
  ghost predicate StatusesTrue(states: seq<State>, run: seq<Label>, n: nat)
    requires n <= |run| && |run| < |states| && states[n].hist != []
  {
    forall k | Shown(Current(states[n]), k) :: LastOneTrue(states, run, n, k)
  }

  lemma LandedWhenTrue(states: seq<State>, run: seq<Label>, n: nat)
    requires Execution(states, run) && n <= |run| && states[n].hist != []
    requires Landed(states, run, n) == Published(run, n)
    ensures LastOnesLanded(states, run, n) <==> StatusesTrue(states, run, n)
  {
    forall k | Shown(Current(states[n]), k)
      ensures LastAbout(Reading(states[0].mirror, k), Landed(states, run, n), k) == Told(Current(states[n]), k)
              <==> LastOneTrue(states, run, n, k)
    {
      ExactReads(states[0].hist[0], states[0].mirror, k);
      PublishedIsTold(states, run, n, k);
    }
  }

  /**
   * Convergence: when publishes succeed in commit order, then from a settled moment on one
   * successful resync makes the worker answer for every plausible token exactly as the
   * tables would, until the next commit, if and only if the last status commit about each
   * key that shows wrote what it announced.
   */
  lemma ResyncConverges(states: seq<State>, run: seq<Label>, w: WorkerId, start: nat, installed: nat)
    requires Execution(states, run) && forall k | 0 <= k < |run| :: InOrder(run[k])
    requires start <= installed < |run| && forall k | start <= k < |run| :: Quiet(w, run[k])
    requires states[start].hist != [] && Settled(states[start], w) && states[start].workers[w].resync.NoResync?
    requires run[installed] == Works(w, Installs)
    ensures var s := states[|run|];
            && w in s.workers && s.hist != []
            && (AnswersMatch(Current(s), s.workers[w].cache) <==> StatusesTrue(states, run, |run|))
  {
    SettledAnswers(states, run, w, start, installed);
    QuietRun(states, run, w, start, |run|);
    InOrderLands(states, run, |run|);
    assert Landed(states, run, |run|) == Published(run, |run|);
    LandedWhenTrue(states, run, |run|);
  }

  // So every token ever minted, of users bumped or never bumped, gets the tables' answer.
  lemma MintedTokensConverge(states: seq<State>, run: seq<Label>, w: WorkerId, start: nat, installed: nat, x: Issue)
    requires Execution(states, run) && forall k | 0 <= k < |run| :: InOrder(run[k])
    requires start <= installed < |run| && forall k | start <= k < |run| :: Quiet(w, run[k])
    requires states[start].hist != [] && Settled(states[start], w) && states[start].workers[w].resync.NoResync?
    requires run[installed] == Works(w, Installs) && x in states[|run|].issued
    requires states[|run|].hist != [] && StatusesTrue(states, run, |run|)
    ensures var s := states[|run|];
            && w in s.workers && x.token.user in Current(s).users && TenantExists(Current(s), x.token.tenant)
            && Authenticate(s.workers[w].cache, Some(x.token)) == AuthenticateFromTables(Current(s), x.token)
  {
    ResyncConverges(states, run, w, start, installed);
    TokensInvariant(states, run, |run|);
    GoodInvariant(states, run, |run|);
    MintedIsPlausible(states[|run|], x);
  }

  // However often a settled worker resyncs, its answers stay what they were until a commit.
  lemma ResyncsRepeat(states: seq<State>, run: seq<Label>, w: WorkerId, start: nat, stop: nat)
    requires Execution(states, run) && start <= stop <= |run| && forall k | start <= k < stop :: Quiet(w, run[k])
    requires states[start].hist != [] && Settled(states[start], w)
    requires states[start].workers[w].resync.NoResync? && states[start].workers[w].cache == states[start].mirror
    ensures states[stop].hist == states[start].hist && w in states[stop].workers
    ensures states[stop].workers[w].cache == states[start].workers[w].cache
  {
    QuietRun(states, run, w, start, stop);
  }
}
