/**
 * The per-worker authorization cache (app/core/authz_cache/cache.py), the publisher that
 * feeds it (app/core/authz_cache/publisher.py), and the request-time check that reads it
 * (app/services/auth/current_user.py).
 */
module AuthzCache {
  import opened Wrappers
  import opened Registry
  import opened Database
  import opened Delegation

  datatype Event =
    | PermVersion(user: UserId, version: nat)
    | UserStatus(user: UserId, active: bool)
    | TenantStatus(tenant: TenantId, active: bool)

  // The events a commit publishes, in whatever order the rows came back.
  ghost function EventsOf(db: Db, c: Commit): set<Event>
    requires Accepts(db, c)
  {
    var users := NewUsers(db, c);
    match c
    case SetUserActive(u, active, _) => {UserStatus(u, active)}
    case SetTenantActive(t, active, _) => {TenantStatus(t, active)}
    case _ => set u | u in Bumped(db, c) && u in users :: PermVersion(u, users[u].version)
  }

  predicate NoDuplicates<T(==)>(s: seq<T>) {
    forall i, j | 0 <= i < j < |s| :: s[i] != s[j]
  }

  // What a worker keeps in memory, and what the Redis mirror keeps durably.
  datatype View = View(versions: map<UserId, nat>, inactiveUsers: set<UserId>, inactiveTenants: set<TenantId>)

  const NOTHING_KNOWN := View(map[], {}, {})

  function Note(v: View, e: Event): View {
    match e
    case PermVersion(u, version) => v.(versions := v.versions[u := version])
    case UserStatus(u, active) => v.(inactiveUsers := if active then v.inactiveUsers - {u} else v.inactiveUsers + {u})
    case TenantStatus(t, active) =>
      v.(inactiveTenants := if active then v.inactiveTenants - {t} else v.inactiveTenants + {t})
  }

  // ------------------------------------------------------------------
  // Publishing
  // ------------------------------------------------------------------

  // The commands queued for one event: PUBLISH, then the durable write.
  datatype Command = Announce(event: Event) | Store(event: Event)

  datatype RedisState = RedisState(mirror: View, published: seq<Event>)

  function Execute(s: RedisState, c: Command): RedisState {
    match c
    case Announce(e) => s.(published := s.published + [e])
    case Store(e) => s.(mirror := Note(s.mirror, e))
  }

  function ExecuteAll(s: RedisState, cs: seq<Command>): RedisState {
    if cs == [] then s else Execute(ExecuteAll(s, cs[..|cs| - 1]), cs[|cs| - 1])
  }

  function Commands(events: seq<Event>): seq<Command> {
    if events == [] then []
    else
      var last := events[|events| - 1];
      Commands(events[..|events| - 1]) + [Announce(last), Store(last)]
  }

  class Redis {
    var permVersions: map<UserId, nat>
    var inactiveUsers: set<UserId>
    var inactiveTenants: set<TenantId>
    var published: seq<Event>

    function Contents(): RedisState
      reads this
    {
      RedisState(View(permVersions, inactiveUsers, inactiveTenants), published)
    }

    method Run(c: Command)
      modifies this
      ensures Contents() == Execute(old(Contents()), c)
    {
      match c
      case Announce(e) => published := published + [e];
      case Store(PermVersion(u, version)) => permVersions := permVersions[u := version];
      case Store(UserStatus(u, active)) =>
        inactiveUsers := if active then inactiveUsers - {u} else inactiveUsers + {u};
      case Store(TenantStatus(t, active)) =>
        inactiveTenants := if active then inactiveTenants - {t} else inactiveTenants + {t};
    }
  }

  /**
   * `publish_events`. The pipeline is no transaction: a connection error after `reach`
   * commands leaves those applied and is swallowed.
   */
  method PublishEvents(redis: Redis, events: seq<Event>, reach: nat)
    modifies redis
    ensures redis.Contents()
            == ExecuteAll(old(redis.Contents()),
                          if reach < |Commands(events)| then Commands(events)[..reach] else Commands(events))
  {
    var pipe: seq<Command> := [];
    for i := 0 to |events|
      invariant redis.Contents() == old(redis.Contents())
      invariant pipe == Commands(events[..i])
    {
      pipe := pipe + [Announce(events[i]), Store(events[i])];
      assert events[..i + 1][..i] == events[..i];
    }
    assert events[..|events|] == events;
    var n := if reach < |pipe| then reach else |pipe|;
    for k := 0 to n
      invariant redis.Contents() == ExecuteAll(old(redis.Contents()), pipe[..k])
    {
      redis.Run(pipe[k]);
      assert pipe[..k + 1][..k] == pipe[..k];
    }
    assert n == |pipe| ==> pipe[..n] == pipe;
  }

  // ------------------------------------------------------------------
  // The cache object
  // ------------------------------------------------------------------

  datatype AccessToken = AccessToken(user: UserId, tenant: Option<TenantId>, superuser: bool, mask: Mask, version: nat)

  datatype Verdict = InvalidToken | UserDeactivated | TenantInactive | StaleToken | Accepted

  predicate KnownStale(v: View, u: UserId, version: nat) {
    u in v.versions && version < v.versions[u]
  }

  // `_authenticate`: the checks in the order they are made; None is a token that fails to decode.
  function Authenticate(v: View, token: Option<AccessToken>): Verdict {
    match token
    case None => InvalidToken
    case Some(t) =>
      if t.user in v.inactiveUsers then UserDeactivated
      else if t.tenant.Some? && t.tenant.value in v.inactiveTenants then TenantInactive
      else if KnownStale(v, t.user, t.version) then StaleToken
      else Accepted
  }

  // The same answer computed from the tables, with no cache in between.
  function AuthenticateFromTables(db: Db, t: AccessToken): Verdict
    requires t.user in db.users && TenantExists(db, t.tenant)
  {
    if !db.users[t.user].active then UserDeactivated
    else if t.tenant.Some? && !db.tenants[t.tenant.value].active then TenantInactive
    else if t.version < db.users[t.user].version then StaleToken
    else Accepted
  }

  // Each verdict says what it is about, and a deactivation outranks an outdated version.
  lemma VerdictsExactly(v: View, token: Option<AccessToken>)
    ensures Authenticate(v, token) == InvalidToken <==> token.None?
    ensures token.Some? ==>
              var t, verdict := token.value, Authenticate(v, token);
              && (verdict == UserDeactivated <==> t.user in v.inactiveUsers)
              && (verdict == TenantInactive <==>
                    t.user !in v.inactiveUsers && exists tenant :: t.tenant == Some(tenant) && tenant in v.inactiveTenants)
              && (verdict == Accepted <==>
                    && t.user !in v.inactiveUsers
                    && (forall tenant | t.tenant == Some(tenant) :: tenant !in v.inactiveTenants)
                    && (t.user in v.versions ==> v.versions[t.user] <= t.version))
  {
  }

  // The tables accept a token exactly of an active user of an active tenant at its version or later.
  lemma TablesAcceptExactly(db: Db, t: AccessToken)
    requires t.user in db.users && TenantExists(db, t.tenant)
    ensures AuthenticateFromTables(db, t) == Accepted <==>
              && db.users[t.user].active && db.users[t.user].version <= t.version
              && forall tenant | t.tenant == Some(tenant) :: db.tenants[tenant].active
    ensures AuthenticateFromTables(db, t) != InvalidToken
    ensures AuthenticateFromTables(db, t) == UserDeactivated <==> !db.users[t.user].active
  {
  }

  // Each of the three Redis reads of a resync, or the error that aborts it.
  datatype Reads = Reads(versions: Option<map<UserId, nat>>, users: Option<set<UserId>>, tenants: Option<set<TenantId>>)

  class Cache {
    var permVersion: map<UserId, nat>
    var inactiveUserIds: set<UserId>
    var inactiveTenantIds: set<TenantId>

    function Contents(): View
      reads this
    {
      View(permVersion, inactiveUserIds, inactiveTenantIds)
    }

    constructor ()
      ensures Contents() == NOTHING_KNOWN
    {
      permVersion, inactiveUserIds, inactiveTenantIds := map[], {}, {};
    }

    method ApplyEvent(e: Event)
      modifies this
      ensures Contents() == Note(old(Contents()), e)
    {
      match e
      case PermVersion(u, version) => permVersion := permVersion[u := version];
      case UserStatus(u, active) =>
        if active { inactiveUserIds := inactiveUserIds - {u}; } else { inactiveUserIds := inactiveUserIds + {u}; }
      case TenantStatus(t, active) =>
        if active { inactiveTenantIds := inactiveTenantIds - {t}; } else { inactiveTenantIds := inactiveTenantIds + {t}; }
    }

    // All three reads come first, so a failed resync changes nothing.
    method ResyncOnce(got: Reads)
      modifies this
      ensures Contents() ==
              if got.versions.Some? && got.users.Some? && got.tenants.Some?
              then View(got.versions.value, got.users.value, got.tenants.value)
              else old(Contents())
    {
      if got.versions.None? || got.users.None? || got.tenants.None? {
        return;
      }
      permVersion := got.versions.value;
      inactiveUserIds := got.users.value;
      inactiveTenantIds := got.tenants.value;
    }

    method IsUserInactive(u: UserId) returns (b: bool)
      ensures b <==> u in Contents().inactiveUsers
    {
      b := u in inactiveUserIds;
    }

    method IsTenantInactive(t: Option<TenantId>) returns (b: bool)
      ensures b <==> t.Some? && t.value in Contents().inactiveTenants
    {
      b := t.Some? && t.value in inactiveTenantIds;
    }

    method IsStale(u: UserId, tokenVersion: nat) returns (b: bool)
      ensures b <==> KnownStale(Contents(), u, tokenVersion)
    {
      if u !in permVersion {
        return false;
      }
      b := tokenVersion < permVersion[u];
    }

    method Check(token: Option<AccessToken>) returns (v: Verdict)
      ensures v == Authenticate(Contents(), token)
    {
      if token.None? {
        return InvalidToken;
      }
      var b := IsUserInactive(token.value.user);
      if b {
        return UserDeactivated;
      }
      b := IsTenantInactive(token.value.tenant);
      if b {
        return TenantInactive;
      }
      b := IsStale(token.value.user, token.value.version);
      return if b then StaleToken else Accepted;
    }
  }

  // ------------------------------------------------------------------
  // Minting (app/services/auth/mint.py)
  // ------------------------------------------------------------------

  datatype MintError = MintUserDeactivated | MintTenantInactive

  // On the user row and masks as they were read; `tenant` is the row looked up last.
  function MintAccessToken(u: UserId, row: User, tenant: Option<Tenant>, mask: Mask): Result<AccessToken, MintError> {
    if !row.active then Failure(MintUserDeactivated)
    else if row.tenant.Some? && (tenant.None? || !tenant.value.active) then Failure(MintTenantInactive)
    else Success(AccessToken(u, row.tenant, row.superuser, mask, row.version))
  }

  // A token is minted exactly for an active user whose tenant, if they have one, is there and
  // active; and at once it is accepted by the tables it was read from.
  lemma MintedIsAccepted(db: Db, u: UserId, mask: Mask)
    requires u in db.users && TenantExists(db, db.users[u].tenant)
    ensures var row := db.users[u];
            var tenant := if row.tenant.Some? then Some(db.tenants[row.tenant.value]) else None;
            var minted := MintAccessToken(u, row, tenant, mask);
            && (minted.Success? <==> row.active && (row.tenant.Some? ==> tenant.value.active))
            && (minted.Success? ==>
                  && minted.value.user == u && minted.value.tenant == row.tenant && minted.value.mask == mask
                  && AuthenticateFromTables(db, minted.value) == Accepted)
  {
  }
}
