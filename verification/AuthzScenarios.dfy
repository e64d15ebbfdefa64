/**
 * Runs of the freshness protocol that end badly with nothing failing on the way: publishes
 * that swap, an activation that changes nothing, and a role deleted after a mint.
 */
module AuthzScenarios {
  import opened Wrappers
  import opened Registry
  import opened Database
  import opened Delegation
  import opened AuthzCache
  import opened AuthzProtocol
  import opened AuthzConvergence

  // ------------------------------------------------------------------
  // Stretches of runs
  // ------------------------------------------------------------------

  datatype Trip = Trip(states: seq<State>, run: seq<Label>)

  function Stay(s: State): Trip {
    Trip([s], [])
  }

  // No publish fails; an ordered one also runs in the order it was queued.
  predicate Succeeds(l: Label, ordered: bool) {
    !l.Drops? && (ordered ==> InOrder(l))
  }

  ghost predicate Leads(s: State, trip: Trip, t: State, ordered: bool) {
    && Chain(trip.states, trip.run) && trip.states[0] == s && trip.states[|trip.run|] == t
    && forall i | 0 <= i < |trip.run| :: Succeeds(trip.run[i], ordered)
  }

  // One stretch after the other.
  lemma Join(s: State, a: Trip, m: State, b: Trip, t: State, ordered: bool) returns (trip: Trip)
    requires Leads(s, a, m, ordered) && Leads(m, b, t, ordered) && b.run != []
    ensures Leads(s, trip, t, ordered) && trip.run != [] && trip.run[|trip.run| - 1] == b.run[|b.run| - 1]
  {
    trip := Trip(a.states + b.states[1..], a.run + b.run);
    forall i | 0 <= i < |trip.run|
      ensures Step(trip.states[i], trip.run[i], trip.states[i + 1]) && Succeeds(trip.run[i], ordered)
    {
      if i < |a.run| {
        assert Step(a.states[i], a.run[i], a.states[i + 1]) && Succeeds(a.run[i], ordered);
      } else {
        var k := i - |a.run|;
        assert Step(b.states[k], b.run[k], b.states[k + 1]) && Succeeds(b.run[k], ordered);
      }
    }
  }

  // One more label.
  lemma Then(s: State, a: Trip, m: State, l: Label, t: State, ordered: bool) returns (trip: Trip)
    requires Leads(s, a, m, ordered) && Enabled(m, l) && Succeeds(l, ordered) && t == Next(m, l)
    ensures Leads(s, trip, t, ordered) && trip.run != [] && trip.run[|trip.run| - 1] == l
  {
    trip := Join(s, a, m, Trip([m, t], [l]), t, ordered);
  }

  // A commit with one event, which is queued twice: for the channel and for the mirror.
  lemma CommitMoves(s: State, trip: Trip, m: State, c: Commit, e: Event, ordered: bool) returns (longer: Trip, t: State)
    requires Leads(s, trip, m, ordered) && m.hist != [] && Accepts(Current(m), c) && EventsOf(Current(m), c) == {e}
    ensures Leads(s, longer, t, ordered) && longer.run != []
    ensures t == m.(hist := m.hist + [Apply(Current(m), c).value], log := m.log + [c],
                    pending := m.pending + [Announce(e), Store(e)])
  {
    assert Elements([e]) == {e};
    assert [e][..0] == [] && Commands([e]) == [Announce(e), Store(e)];
    t := Next(m, Commits(c, [e]));
    longer := Then(s, trip, m, Commits(c, [e]), t, ordered);
  }

  // The user and their tenant may sign in.
  predicate MaySignIn(db: Db, u: UserId) {
    && u in db.users && db.users[u].active
    && (db.users[u].tenant.Some? ==>
          db.users[u].tenant.value in db.tenants && db.tenants[db.users[u].tenant.value].active)
  }

  // A whole mint with nothing in between.
  lemma MintRuns(s: State, trip: Trip, m: State, id: MintId, u: UserId, ordered: bool)
    returns (longer: Trip, t: State, x: Issue)
    requires Leads(s, trip, m, ordered) && m.hist != [] && m.minting == map[] && MaySignIn(Current(m), u)
    ensures Leads(s, longer, t, ordered) && longer.run != [] && t == m.(issued := m.issued + {x})
    ensures var row := Current(m).users[u];
            x.token == AccessToken(u, row.tenant, row.superuser, EffectiveMask(Current(m), u), row.version)
  {
    var db, now := Current(m), |m.hist| - 1;
    var row := db.users[u];
    var roleMask, directMask := RoleMask(db, u), DirectMask(db, u);
    t := m.(minting := map[id := ReadUser(u, row, now)]);
    longer := Then(s, trip, m, BeginsMint(id, u), t, ordered);
    longer, t := MintMoves(s, longer, t, id, t.minting[id], ReadRoles(u, row, now, roleMask, now), ordered);
    longer, t := MintMoves(s, longer, t, id, t.minting[id],
                           ReadGrants(u, row, now, roleMask, now, directMask, now), ordered);
    x := Issue(AccessToken(u, row.tenant, row.superuser, roleMask + directMask, row.version), now, now, now, now);
    var done := t.(minting := map[], issued := t.issued + {x});
    longer := Then(s, longer, t, Mints(id), done, ordered);
    t := done;
  }

  lemma MintMoves(s: State, trip: Trip, m: State, id: MintId, before: Minting, after: Minting, ordered: bool)
    returns (longer: Trip, t: State)
    requires Leads(s, trip, m, ordered) && m.hist != [] && m.minting == map[id := before]
    requires AdvanceMint(before, Current(m), |m.hist| - 1) == (Some(after), {})
    ensures Leads(s, longer, t, ordered) && longer.run != [] && t == m.(minting := map[id := after])
  {
    t := m.(minting := map[id := after]);
    longer := Then(s, trip, m, Mints(id), t, ordered);
  }

  lemma MessageArrives(s: State, w: WorkerId, x: Worker, e: Event)
    requires s.workers == map[w := x]
    ensures Perform(s, Announce(e)) == s.(workers := map[w := x.(inbox := x.inbox + [e])])
  {
    assert Perform(s, Announce(e)).workers.Keys == {w};
  }

  // The publish at the head of the queue, or behind another one, reaches Redis and the worker.
  lemma PublishLands(s: State, trip: Trip, m: State, i: nat, w: WorkerId, x: Worker, e: Event, ordered: bool)
    returns (longer: Trip, t: State)
    requires Leads(s, trip, m, ordered) && m.hist != [] && m.workers == map[w := x] && i + 1 < |m.pending|
    requires m.pending[i] == Announce(e) && m.pending[i + 1] == Store(e) && (ordered ==> i == 0)
    ensures Leads(s, longer, t, ordered) && longer.run != []
    ensures t == m.(pending := m.pending[..i] + m.pending[i + 2..], mirror := Note(m.mirror, e),
                    workers := map[w := x.(inbox := x.inbox + [e])])
  {
    MessageArrives(m, w, x, e);
    var a := Next(m, Performs(i, false));
    longer := Then(s, trip, m, Performs(i, false), a, ordered);
    assert a.pending[i] == Store(e);
    t := Next(a, Performs(i, false));
    longer := Then(s, longer, a, Performs(i, false), t, ordered);
    assert t.pending == m.pending[..i] + m.pending[i + 2..];
  }

  // The worker receives two messages, then resyncs.
  lemma WorkerCatchesUp(s: State, trip: Trip, m: State, w: WorkerId, a: Event, b: Event, ordered: bool)
    returns (longer: Trip, t: State)
    requires Leads(s, trip, m, ordered) && m.hist != []
    requires m.workers == map[w := Worker(NOTHING_KNOWN, [a, b], NoResync)]
    ensures Leads(s, longer, t, ordered) && longer.run != [] && longer.run[|longer.run| - 1] == Works(w, Installs)
    ensures t == m.(workers := map[w := Worker(m.mirror, [], NoResync)])
  {
    var v := m.mirror;
    var c1 := Note(NOTHING_KNOWN, a);
    var c2 := Note(c1, b);
    longer, t := WorkerMoves(s, trip, m, w, Worker(NOTHING_KNOWN, [a, b], NoResync), Delivers(0),
                             Worker(c1, [b], NoResync), ordered);
    longer, t := WorkerMoves(s, longer, t, w, Worker(c1, [b], NoResync), Delivers(0), Worker(c2, [], NoResync), ordered);
    longer, t := WorkerMoves(s, longer, t, w, Worker(c2, [], NoResync), ReadsVersions,
                             Worker(c2, [], GotVersions(v.versions)), ordered);
    longer, t := WorkerMoves(s, longer, t, w, Worker(c2, [], GotVersions(v.versions)), ReadsUsers,
                             Worker(c2, [], GotUsers(v.versions, v.inactiveUsers)), ordered);
    longer, t := WorkerMoves(s, longer, t, w, Worker(c2, [], GotUsers(v.versions, v.inactiveUsers)), ReadsTenants,
                             Worker(c2, [], GotAll(v)), ordered);
    longer, t := WorkerMoves(s, longer, t, w, Worker(c2, [], GotAll(v)), Installs, Worker(v, [], NoResync), ordered);
  }

  lemma WorkerMoves(s: State, trip: Trip, m: State, w: WorkerId, x: Worker, step: WorkerStep, y: Worker, ordered: bool)
    returns (longer: Trip, t: State)
    requires Leads(s, trip, m, ordered) && m.hist != [] && m.workers == map[w := x]
    requires CanWork(x, step) && Work(x, m.mirror, step) == y
    ensures Leads(s, longer, t, ordered) && longer.run != [] && longer.run[|longer.run| - 1] == Works(w, step)
    ensures t == m.(workers := map[w := y])
  {
    t := Next(m, Works(w, step));
    assert t.workers == map[w := y];
    longer := Then(s, trip, m, Works(w, step), t, ordered);
  }

  // Nothing is going on and the tables are what the run began with.
  ghost predicate Idle(s: State) {
    s.hist != [] && s.pending == [] && s.workers == map[] && s.minting == map[]
  }

  // ------------------------------------------------------------------
  // Two publishes that swap
  // ------------------------------------------------------------------

  // Taking a role from a user bumps that user's version alone, link or no link.
  lemma RemovalBumps(db: Db, r: RoleId, u: UserId)
    requires u in db.users
    ensures var next := Apply(db, RemoveRole(r, u)).value;
            && Accepts(db, RemoveRole(r, u))
            && next.users == db.users[u := db.users[u].(version := db.users[u].version + 1)]
            && next.tenants == db.tenants
            && EventsOf(db, RemoveRole(r, u)) == {PermVersion(u, db.users[u].version + 1)}
  {
  }

  // Two commits that bump a user, and a token minted between them.
  lemma MintBetweenBumps(s: State, r1: RoleId, r2: RoleId, u: UserId, w: WorkerId, m: MintId)
    returns (trip: Trip, t: State, x: Issue)
    requires Idle(s) && MaySignIn(Current(s), u)
    ensures Leads(s, trip, t, false) && trip.run != []
    ensures var version := Current(s).users[u].version;
            var first, second := PermVersion(u, version + 1), PermVersion(u, version + 2);
            && t.hist != [] && t.mirror == s.mirror && t.workers == map[w := COLD] && x in t.issued
            && t.pending == [Announce(first), Store(first), Announce(second), Store(second)]
            && Current(t).tenants == Current(s).tenants
            && Current(t).users == Current(s).users[u := Current(s).users[u].(version := version + 2)]
            && x.token.user == u && x.token.tenant == Current(s).users[u].tenant && x.token.version == version + 1
  {
    var a := s.(workers := map[w := COLD]);
    trip := Then(s, Stay(s), s, Starts(w), a, false);
    var b, c;
    trip, b := BumpMoves(s, trip, a, r1, u);
    trip, c, x := MintRuns(s, trip, b, m, u, false);
    trip, t := BumpMoves(s, trip, c, r2, u);
  }

  lemma BumpMoves(s: State, trip: Trip, m: State, r: RoleId, u: UserId) returns (longer: Trip, t: State)
    requires Leads(s, trip, m, false) && m.hist != [] && u in Current(m).users
    ensures Leads(s, longer, t, false) && longer.run != [] && t.hist != []
    ensures t.mirror == m.mirror && t.workers == m.workers && t.minting == m.minting && t.issued == m.issued
    ensures Current(t).tenants == Current(m).tenants
    ensures var version := Current(m).users[u].version;
            && Current(t).users == Current(m).users[u := Current(m).users[u].(version := version + 1)]
            && t.pending == m.pending + [Announce(PermVersion(u, version + 1)), Store(PermVersion(u, version + 1))]
  {
    RemovalBumps(Current(m), r, u);
    longer, t := CommitMoves(s, trip, m, RemoveRole(r, u), PermVersion(u, Current(m).users[u].version + 1), false);
  }

  /**
   * A run of nothing but successful operations after which every resync agrees on a wrong
   * answer: two roles are taken from a user, a token is minted in between, and the later
   * publish reaches Redis before the earlier one. The tables call the token stale; the settled and
   * freshly resynced worker accepts it.
   */
  lemma SwappedPublishesStayWrong(s: State, r1: RoleId, r2: RoleId, u: UserId, w: WorkerId, m: MintId)
    returns (states: seq<State>, run: seq<Label>, x: Issue)
    requires Initial(s) && MaySignIn(Current(s), u)
    ensures Execution(states, run) && states[0] == s && run != []
    ensures (forall i | 0 <= i < |run| :: Succeeds(run[i], false)) && run[|run| - 1] == Works(w, Installs)
    ensures WronglyAccepts(states[|run|], w, x, StaleToken) && x.token.user == u
  {
    var trip, t;
    trip, t, x := SwapThenResync(s, r1, r2, u, w, m);
    states, run := trip.states, trip.run;
    assert RowsResolve(Current(s));
    SwappedAnswers(s.mirror, Current(s), Current(t), x.token);
  }

  // A settled worker, freshly resynced, accepts a token the tables would refuse.
  ghost predicate WronglyAccepts(t: State, w: WorkerId, x: Issue, verdict: Verdict) {
    && Settled(t, w) && t.workers[w].cache == t.mirror && t.workers[w].resync.NoResync? && x in t.issued
    && t.hist != [] && Plausible(Current(t), x.token)
    && AuthenticateFromTables(Current(t), x.token) == verdict != Accepted
    && Authenticate(t.workers[w].cache, Some(x.token)) == Accepted
  }

  lemma SwapThenResync(s: State, r1: RoleId, r2: RoleId, u: UserId, w: WorkerId, m: MintId)
    returns (trip: Trip, t: State, x: Issue)
    requires Idle(s) && MaySignIn(Current(s), u)
    ensures Leads(s, trip, t, false) && trip.run != [] && trip.run[|trip.run| - 1] == Works(w, Installs)
    ensures t.hist != [] && x in t.issued && t.pending == [] && t.workers == map[w := Worker(t.mirror, [], NoResync)]
    ensures Current(t).tenants == Current(s).tenants
    ensures var version := Current(s).users[u].version;
            && Current(t).users == Current(s).users[u := Current(s).users[u].(version := version + 2)]
            && t.mirror == Note(Note(s.mirror, PermVersion(u, version + 2)), PermVersion(u, version + 1))
            && x.token.user == u && x.token.tenant == Current(s).users[u].tenant && x.token.version == version + 1
  {
    var version := Current(s).users[u].version;
    var first, second := PermVersion(u, version + 1), PermVersion(u, version + 2);
    trip, t, x := MintBetweenBumps(s, r1, r2, u, w, m);
    trip, t := PublishLands(s, trip, t, 2, w, COLD, second, false);
    assert t.pending == [Announce(first), Store(first)] && [] + [second] == [second];
    trip, t := PublishLands(s, trip, t, 0, w, Worker(NOTHING_KNOWN, [second], NoResync), first, false);
    assert t.pending == [] && [second] + [first] == [second, first];
    trip, t := WorkerCatchesUp(s, trip, t, w, second, first, false);
  }

  lemma SwappedAnswers(mirror: View, db: Db, end: Db, t: AccessToken)
    requires Exact(db, mirror) && MaySignIn(db, t.user) && FIRST_VERSION <= db.users[t.user].version
    requires end.tenants == db.tenants
    requires end.users == db.users[t.user := db.users[t.user].(version := db.users[t.user].version + 2)]
    requires t.tenant == db.users[t.user].tenant && t.version == db.users[t.user].version + 1
    ensures var v := Note(Note(mirror, PermVersion(t.user, t.version + 1)), PermVersion(t.user, t.version));
            Authenticate(v, Some(t)) == Accepted
    ensures Plausible(end, t) && AuthenticateFromTables(end, t) == StaleToken
  {
  }

  // ------------------------------------------------------------------
  // An activation that changes nothing
  // ------------------------------------------------------------------

  // The user's flag is assigned; nothing else about the tables moves.
  lemma FlagAssigned(db: Db, u: UserId, active: bool, was: bool)
    requires u in db.users
    ensures var c := SetUserActive(u, active, was);
            && Accepts(db, c) && EventsOf(db, c) == {UserStatus(u, active)}
            && Apply(db, c).value.tenants == db.tenants
            && Apply(db, c).value.users == db.users[u := db.users[u].(active := Assigned(db.users[u].active, was, active))]
  {
  }

  /**
   * A run with every publish successful and in commit order: a user is deactivated while an
   * activation that loaded them active is under way. The activation assigns what its copy
   * says already, so it writes nothing and announces it all the same. The tables hold the
   * user deactivated; the settled and freshly resynced worker lets their token through.
   */
  lemma IdleActivationStaysWrong(s: State, u: UserId, w: WorkerId, m: MintId)
    returns (states: seq<State>, run: seq<Label>, x: Issue)
    requires Initial(s) && MaySignIn(Current(s), u)
    ensures Execution(states, run) && states[0] == s && run != []
    ensures (forall i | 0 <= i < |run| :: InOrder(run[i])) && run[|run| - 1] == Works(w, Installs)
    ensures states[|run|].log == s.log + [SetUserActive(u, false, true), SetUserActive(u, true, true)]
    ensures WronglyAccepts(states[|run|], w, x, UserDeactivated) && x.token.user == u
  {
    var trip, t;
    trip, t, x := DeactivateThenActivate(s, u, w, m);
    states, run := trip.states, trip.run;
    forall i | 0 <= i < |run| ensures InOrder(run[i]) {
      assert Succeeds(run[i], true);
    }
    assert RowsResolve(Current(s));
    IdleAnswers(s.mirror, Current(s), Current(t), x.token);
  }

  lemma DeactivateThenActivate(s: State, u: UserId, w: WorkerId, m: MintId) returns (trip: Trip, t: State, x: Issue)
    requires Idle(s) && MaySignIn(Current(s), u)
    ensures Leads(s, trip, t, true) && trip.run != [] && trip.run[|trip.run| - 1] == Works(w, Installs)
    ensures t.hist != [] && x in t.issued && t.pending == [] && t.workers == map[w := Worker(t.mirror, [], NoResync)]
    ensures t.log == s.log + [SetUserActive(u, false, true), SetUserActive(u, true, true)]
    ensures Current(t).tenants == Current(s).tenants
    ensures Current(t).users == Current(s).users[u := Current(s).users[u].(active := false)]
    ensures t.mirror == Note(Note(s.mirror, UserStatus(u, false)), UserStatus(u, true))
    ensures x.token.user == u && x.token.tenant == Current(s).users[u].tenant
    ensures x.token.version == Current(s).users[u].version
  {
    var off, on := UserStatus(u, false), UserStatus(u, true);
    t := s.(workers := map[w := COLD]);
    trip := Then(s, Stay(s), s, Starts(w), t, true);
    trip, t, x := MintRuns(s, trip, t, m, u, true);
    trip, t := FlagMoves(s, trip, t, u, false, w, COLD);
    assert [] + [off] == [off];
    trip, t := FlagMoves(s, trip, t, u, true, w, Worker(NOTHING_KNOWN, [off], NoResync));
    assert [off] + [on] == [off, on];
    trip, t := WorkerCatchesUp(s, trip, t, w, off, on, true);
  }

  // One assignment on a copy that says active, published at once.
  lemma FlagMoves(s: State, trip: Trip, m: State, u: UserId, active: bool, w: WorkerId, x: Worker)
    returns (longer: Trip, t: State)
    requires Leads(s, trip, m, true) && m.hist != [] && m.pending == [] && m.workers == map[w := x] && u in Current(m).users
    ensures Leads(s, longer, t, true) && longer.run != [] && t.hist != [] && t.pending == []
    ensures t.log == m.log + [SetUserActive(u, active, true)] && t.issued == m.issued
    ensures Current(t).tenants == Current(m).tenants
    ensures Current(t).users
            == Current(m).users[u := Current(m).users[u].(active := Assigned(Current(m).users[u].active, true, active))]
    ensures t.mirror == Note(m.mirror, UserStatus(u, active))
    ensures t.workers == map[w := x.(inbox := x.inbox + [UserStatus(u, active)])]
  {
    FlagAssigned(Current(m), u, active, true);
    longer, t := CommitMoves(s, trip, m, SetUserActive(u, active, true), UserStatus(u, active), true);
    longer, t := PublishLands(s, longer, t, 0, w, x, UserStatus(u, active), true);
  }

  lemma IdleAnswers(mirror: View, db: Db, end: Db, t: AccessToken)
    requires Exact(db, mirror) && MaySignIn(db, t.user) && FIRST_VERSION <= db.users[t.user].version
    requires end.tenants == db.tenants && end.users == db.users[t.user := db.users[t.user].(active := false)]
    requires t.tenant == db.users[t.user].tenant && t.version == db.users[t.user].version
    ensures Authenticate(Note(Note(mirror, UserStatus(t.user, false)), UserStatus(t.user, true)), Some(t)) == Accepted
    ensures Plausible(end, t) && AuthenticateFromTables(end, t) == UserDeactivated
  {
  }

  // ------------------------------------------------------------------
  // A role deleted after a mint
  // ------------------------------------------------------------------

  /**
   * A token at its user's current version that carries a bit the user has lost: the role
   * that gave it was deleted after the mint, and nothing moved the version.
   */
  lemma DeletedRoleLingers(s: State, r: RoleId, u: UserId, b: nat, m: MintId)
    returns (states: seq<State>, run: seq<Label>, x: Issue)
    requires Initial(s) && MaySignIn(Current(s), u) && r in Current(s).roles && (u, r) in Current(s).userRoles
    requires b in LostBits(Current(s), DeleteRole(r), u)
    ensures Execution(states, run) && states[0] == s
    ensures var t := states[|run|];
            && t.hist != [] && x in t.issued && x.token.user == u && u in Current(t).users
            && x.token.version == Current(t).users[u].version
            && b in x.token.mask && b !in EffectiveMask(Current(t), u)
  {
    var c := DeleteRole(r);
    var trip, t;
    trip, t, x := MintRuns(s, Stay(s), s, m, u, true);
    var next := Apply(Current(t), c).value;
    assert Bump(Current(t).users, {}) == Current(t).users;
    UnversionedStep(Current(t), c, u);
    assert Elements<Event>([]) == {} && EventsOf(Current(t), c) == {};
    var end := Next(t, Commits(c, []));
    trip := Then(s, trip, t, Commits(c, []), end, true);
    states, run := trip.states, trip.run;
  }
}
