/**
 * What an authoring request leaves behind when nothing else commits in between: the whole
 * effect of its loop, and that a role's permissions stay closed under implication.
 */
module RoleAuthoring {
  import opened Wrappers
  import opened Registry
  import opened Database
  import opened Delegation
  import opened Services

  predicate Distinct(s: seq<nat>) {
    forall i, j | 0 <= i < j < |s| :: s[i] != s[j]
  }

  function LinksTo(roles: set<RoleId>, g: RoleId): set<(RoleId, RoleId)> {
    set r | r in roles :: (r, g)
  }

  lemma LinkApplies(db: Db, r: RoleId, g: RoleId)
    requires r in db.roles && g in db.roles && (r, g) !in db.grantRoles
    ensures Apply(db, LinkRole(r, g)) == Some(db.(grantRoles := db.grantRoles + {(r, g)}))
  {
    assert Bump(db.users, {}) == db.users;
  }

  // The linking loop of `create_role` adds exactly one link from each role.
  lemma {:induction false} LinkEachApplies(db: Db, roles: seq<RoleId>, g: RoleId)
    requires Distinct(roles) && g in db.roles
    requires forall r | r in roles :: r in db.roles && (r, g) !in db.grantRoles
    ensures ApplyAll(db, LinkEach(roles, g))
            == (db.(grantRoles := db.grantRoles + LinksTo(Elements(roles), g)), true)
    decreases |roles|
  {
    if roles == [] {
      assert db.grantRoles + LinksTo(Elements(roles), g) == db.grantRoles;
    } else {
      LinkApplies(db, roles[0], g);
      var next := db.(grantRoles := db.grantRoles + {(roles[0], g)});
      forall r | r in roles[1..] ensures r in next.roles && (r, g) !in next.grantRoles {
        var i :| 1 <= i < |roles| && roles[i] == r;
      }
      LinkEachApplies(next, roles[1..], g);
      LinkEachStep(db, roles, g);
      assert Elements(roles) == {roles[0]} + Elements(roles[1..]);
      assert db.grantRoles + LinksTo(Elements(roles), g)
             == next.grantRoles + LinksTo(Elements(roles[1..]), g);
    }
  }

  // A create-role request that passes its guards commits whole: the role is there, and each
  // of its author's roles, unless the author is a superuser, may grant it.
  lemma CreateRoleApplies(db: Db, actor: UserId, name: string, names: seq<string>, order: seq<nat>)
    requires Wf(db) && Synced(db) && actor in db.users && Distinct(order) && RolesOf(db, actor) <= Elements(order)
    requires Decide(db, CreateRole(actor, name, names), order).Success?
    ensures var (end, ok) := ApplyAll(db, Decide(db, CreateRole(actor, name, names), order).value);
            && ok && db.nextRole in end.roles && db.nextRole !in db.roles
            && end.userRoles == db.userRoles && end.users == db.users
            && end.grantRoles == db.grantRoles + if db.users[actor].superuser then {} else LinksTo(RolesOf(db, actor), db.nextRole)
  {
    var commits := Decide(db, CreateRole(actor, name, names), order).value;
    CreatedRoleIsClosed(db, actor, name, names, order);
    var made := Apply(db, commits[0]).value;
    assert Bump(db.users, {}) == db.users;
    if db.users[actor].superuser {
      assert commits == [commits[0]];
      ApplyFirst(db, commits[0], []);
    } else {
      var roles := Arrange(RolesOf(db, actor), order);
      assert commits == [commits[0]] + LinkEach(roles, db.nextRole);
      ArrangeIsDistinct(RolesOf(db, actor), order);
      LinksApplyAfter(db, commits[0], made, roles, db.nextRole);
    }
  }

  // The links of a new role after the commit that inserted it.
  lemma LinksApplyAfter(db: Db, insert: Commit, made: Db, roles: seq<RoleId>, g: RoleId)
    requires LinksResolve(db) && Distinct(roles) && (forall r | r in roles :: r in db.roles)
    requires insert.InsertRole? && insert.role == g && g !in db.roles && Apply(db, insert) == Some(made)
    ensures ApplyAll(db, [insert] + LinkEach(roles, g))
            == (made.(grantRoles := db.grantRoles + LinksTo(Elements(roles), g)), true)
  {
    forall r | r in roles ensures (r, g) !in db.grantRoles {
      assert (r, g).1 !in db.roles;
    }
    LinkEachApplies(made, roles, g);
    ApplyFirst(db, insert, LinkEach(roles, g));
    LinkEachIs(roles, g);
    NothingToReload(made, LinkEach(roles, g));
  }

  // The author of a role can grant it afterwards, provided they hold any role at all.
  lemma AuthorCanGrant(db: Db, actor: UserId, name: string, names: seq<string>, order: seq<nat>)
    requires Wf(db) && Synced(db) && actor in db.users && Distinct(order) && RolesOf(db, actor) <= Elements(order)
    requires Decide(db, CreateRole(actor, name, names), order).Success?
    ensures var end := ApplyAll(db, Decide(db, CreateRole(actor, name, names), order).value).0;
            && actor in end.users
            && (CanGrantRole(end, actor, db.nextRole) <==> db.users[actor].superuser || RolesOf(db, actor) != {})
  {
    var end := ApplyAll(db, Decide(db, CreateRole(actor, name, names), order).value).0;
    CreateRoleApplies(db, actor, name, names, order);
    if !db.users[actor].superuser {
      if r :| r in RolesOf(db, actor) {
        assert (r, db.nextRole) in end.grantRoles;
      }
      if db.nextRole in GrantableRoles(end, actor) {
        var l :| l in end.grantRoles && (actor, l.0) in end.userRoles && l.1 == db.nextRole;
        assert l.0 in RolesOf(db, actor) by { assert (actor, l.0) in db.userRoles; }
      }
    }
  }

  // Each added permission bumps every holder once; nothing else about users moves.
  function BumpBy(users: map<UserId, User>, us: set<UserId>, times: nat): map<UserId, User> {
    map u | u in users :: if u in us then users[u].(version := users[u].version + times) else users[u]
  }

  function WithPerms(db: Db, role: RoleId, perms: set<PermId>, times: nat): Db
    requires role in db.roles
  {
    var row := db.roles[role];
    db.(users := BumpBy(db.users, Holders(db, role), times),
        roles := db.roles[role := row.(mask := row.mask + RowBits(db, perms), perms := row.perms + perms)])
  }

  lemma AddApplies(db: Db, role: RoleId, p: PermId)
    requires role in db.roles && p in db.perms && p !in db.roles[role].perms
    ensures Apply(db, AddPermission(role, p, db.roles[role].mask)) == Some(WithPerms(db, role, {p}, 1))
  {
    assert RowBits(db, {p}) == BitOf(db.perms[p]);
    assert Bump(db.users, Holders(db, role)) == BumpBy(db.users, Holders(db, role), 1);
  }

  lemma WithPermsTwice(db: Db, role: RoleId, a: set<PermId>, b: set<PermId>, times: nat)
    requires role in db.roles
    ensures WithPerms(WithPerms(db, role, a, 1), role, b, times) == WithPerms(db, role, a + b, times + 1)
  {
    var next := WithPerms(db, role, a, 1);
    assert RowBits(next, b) == RowBits(db, b) && RowBits(db, a + b) == RowBits(db, a) + RowBits(db, b);
    assert Holders(next, role) == Holders(db, role);
    var row := db.roles[role];
    assert row.mask + RowBits(db, a) + RowBits(db, b) == row.mask + RowBits(db, a + b);
    assert row.perms + a + b == row.perms + (a + b);
    assert BumpBy(next.users, Holders(db, role), times) == BumpBy(db.users, Holders(db, role), times + 1);
  }

  // The adding loop of `add_permission_to_role`: all the rows, their bits, one bump each.
  lemma {:induction false} AddEachApplies(db: Db, role: RoleId, perms: seq<PermId>)
    requires Distinct(perms) && role in db.roles
    requires forall p | p in perms :: p in db.perms && p !in db.roles[role].perms
    ensures ApplyAll(db, AddEach(role, perms, db.roles[role].mask))
            == (WithPerms(db, role, Elements(perms), |perms|), true)
    decreases |perms|
  {
    if perms == [] {
      NoPerms(db, role);
    } else {
      var next := WithPerms(db, role, {perms[0]}, 1);
      AddApplies(db, role, perms[0]);
      AddFirst(db, role, perms, next);
      RestIsNew(db, role, perms);
      AddEachApplies(next, role, perms[1..]);
      WithPermsTwice(db, role, {perms[0]}, Elements(perms[1..]), |perms| - 1);
      assert Elements(perms) == {perms[0]} + Elements(perms[1..]);
    }
  }

  lemma AddFirst(db: Db, role: RoleId, perms: seq<PermId>, next: Db)
    requires perms != [] && role in db.roles && role in next.roles
    requires Apply(db, AddPermission(role, perms[0], db.roles[role].mask)) == Some(next)
    ensures ApplyAll(db, AddEach(role, perms, db.roles[role].mask))
            == ApplyAll(next, AddEach(role, perms[1..], next.roles[role].mask))
  {
    AddEachStep(db, role, perms, db.roles[role].mask);
  }

  lemma RestIsNew(db: Db, role: RoleId, perms: seq<PermId>)
    requires perms != [] && Distinct(perms) && role in db.roles
    requires forall p | p in perms :: p in db.perms && p !in db.roles[role].perms
    ensures Distinct(perms[1..])
    ensures forall p | p in perms[1..] :: p in db.perms && p !in db.roles[role].perms + {perms[0]}
  {
    forall p | p in perms[1..] ensures p in perms && p != perms[0] {
      var i :| 1 <= i < |perms| && perms[i] == p;
    }
  }

  lemma NoPerms(db: Db, role: RoleId)
    requires role in db.roles
    ensures WithPerms(db, role, Elements([]), 0) == db
  {
    assert RowBits(db, {}) == {} && Elements<PermId>([]) == {};
    assert BumpBy(db.users, Holders(db, role), 0) == db.users;
    var row := db.roles[role];
    assert row.mask + {} == row.mask && row.perms + {} == row.perms;
    assert db.roles[role := row] == db.roles;
  }

  // ------------------------------------------------------------------
  // Closed under implication
  // ------------------------------------------------------------------

  ghost predicate RoleClosed(db: Db, role: RoleId)
    requires role in db.roles
  {
    IsClosed(db.cat.implies, NamesOf(db, db.roles[role].perms))
  }

  // A role is created closed.
  lemma CreatedRoleIsClosed(db: Db, actor: UserId, name: string, names: seq<string>, order: seq<nat>)
    requires Wf(db) && Synced(db) && actor in db.users
    requires Decide(db, CreateRole(actor, name, names), order).Success?
    ensures var first := Decide(db, CreateRole(actor, name, names), order).value[0];
            && first.InsertRole? && Accepts(db, first)
            && Elements(names) <= NamesOf(db, first.row.perms) == Closure(db.cat.implies, Elements(names))
            && first.row.name == name
            && first.row.tenant == (if db.users[actor].superuser then None else db.users[actor].tenant)
            && RoleClosed(Apply(db, first).value, first.role)
  {
    var expanded := Closure(db.cat.implies, Elements(names));
    ClosureContains(db.cat.implies, Elements(names));
    RowsNamedCarryTheMask(db, expanded);
    var first := Decide(db, CreateRole(actor, name, names), order).value[0];
    assert NamesOf(db, RowsNamed(db, expanded)) == expanded;
    if first.row.tenant.Some? {
      assert TenantExists(db, db.users[actor].tenant);
    }
    assert db.nextRole !in db.roles;
    assert NamesOf(Apply(db, first).value, first.row.perms) == expanded;
  }

  // The names a role has after the loop: what it had, and all the new permission implies.
  lemma ExtendedNames(db: Db, role: RoleId, perm: PermId, rows: set<PermId>)
    requires Wf(db) && Synced(db) && role in db.roles && perm in db.perms
    requires Closure(db.cat.implies, {db.perms[perm].name}) <= db.cat.bits.Keys
    requires rows == {perm} + RowsNamed(db, ImpliedToAdd(db, role, perm))
    ensures NamesOf(db, db.roles[role].perms + rows)
            == NamesOf(db, db.roles[role].perms) + Closure(db.cat.implies, {db.perms[perm].name})
  {
    ClosureContains(db.cat.implies, {db.perms[perm].name});
    NamesGained(db, db.roles[role].perms, perm, Closure(db.cat.implies, {db.perms[perm].name}));
  }

  // Rows for the names missing from a set that is to be gained.
  lemma NamesGained(db: Db, have: set<PermId>, perm: PermId, gained: set<string>)
    requires Wf(db) && Synced(db) && perm in db.perms && db.perms[perm].name in gained && gained <= db.cat.bits.Keys
    ensures var missing := gained - NamesOf(db, have) - {db.perms[perm].name};
            NamesOf(db, have + ({perm} + RowsNamed(db, missing))) == NamesOf(db, have) + gained
  {
    var name := db.perms[perm].name;
    var missing := gained - NamesOf(db, have) - {name};
    RowsHaveTheNames(db, missing);
    NamesOfUnion(db, have, {perm} + RowsNamed(db, missing));
    NamesOfUnion(db, {perm}, RowsNamed(db, missing));
    assert NamesOf(db, {perm}) == {name};
    SetsAddUp(NamesOf(db, have), gained, name);
  }

  lemma SetsAddUp(have: set<string>, gained: set<string>, name: string)
    requires name in gained
    ensures have + ({name} + (gained - have - {name})) == have + gained
  {
  }

  lemma RowsHaveTheNames(db: Db, names: set<string>)
    requires Wf(db) && Synced(db) && names <= db.cat.bits.Keys
    ensures NamesOf(db, RowsNamed(db, names)) == names
  {
    RowsNamedCarryTheMask(db, names);
  }

  lemma NamesOfUnion(db: Db, a: set<PermId>, b: set<PermId>)
    ensures NamesOf(db, a + b) == NamesOf(db, a) + NamesOf(db, b)
  {
  }

  // The rows the request adds, in its order.
  ghost function AddedRows(db: Db, role: RoleId, perm: PermId, order: seq<nat>): seq<PermId>
    requires role in db.roles && perm in db.perms
  {
    [perm] + Arrange(RowsNamed(db, ImpliedToAdd(db, role, perm)), order)
  }

  lemma AddedRowsAreNew(db: Db, role: RoleId, perm: PermId, order: seq<nat>)
    requires role in db.roles && perm in db.perms && perm !in db.roles[role].perms && Distinct(order)
    ensures Distinct(AddedRows(db, role, perm, order))
    ensures forall p | p in AddedRows(db, role, perm, order) :: p in db.perms && p !in db.roles[role].perms
  {
    var implied := ImpliedToAdd(db, role, perm);
    var rest := Arrange(RowsNamed(db, implied), order);
    ArrangeIsDistinct(RowsNamed(db, implied), order);
    forall p | p in rest ensures p in db.perms && p !in db.roles[role].perms && p != perm {
      assert p in RowsNamed(db, implied);
      assert db.perms[p].name !in NamesOf(db, db.roles[role].perms);
    }
  }

  lemma ExtendRoleAdds(db: Db, actor: UserId, role: RoleId, perm: PermId, order: seq<nat>)
    requires actor in db.users && Decide(db, ExtendRole(actor, role, perm), order).Success?
    ensures role in db.roles && perm in db.perms && perm !in db.roles[role].perms
    ensures Decide(db, ExtendRole(actor, role, perm), order).value
            == AddEach(role, AddedRows(db, role, perm, order), db.roles[role].mask)
  {
  }

  // Adding a permission keeps a closed role closed, and adds exactly what is implied.
  lemma ExtendedRoleStaysClosed(db: Db, actor: UserId, role: RoleId, perm: PermId, order: seq<nat>)
    requires Wf(db) && Synced(db) && actor in db.users && Decide(db, ExtendRole(actor, role, perm), order).Success?
    requires role in db.roles && perm in db.perms
    requires RoleClosed(db, role) && Distinct(order) && db.perms.Keys <= Elements(order)
    requires Closure(db.cat.implies, {db.perms[perm].name}) <= db.cat.bits.Keys
    ensures var (end, ok) := ApplyAll(db, Decide(db, ExtendRole(actor, role, perm), order).value);
            && ok && role in end.roles && RoleClosed(end, role)
            && NamesOf(end, end.roles[role].perms)
               == NamesOf(db, db.roles[role].perms) + Closure(db.cat.implies, {db.perms[perm].name})
  {
    var rows := AddedRows(db, role, perm, order);
    ExtendRoleAdds(db, actor, role, perm, order);
    AddedRowsAreNew(db, role, perm, order);
    AddEachApplies(db, role, rows);
    ClosedAfterAdding(db, role, perm, order, |rows|);
  }

  lemma ClosedAfterAdding(db: Db, role: RoleId, perm: PermId, order: seq<nat>, times: nat)
    requires Wf(db) && Synced(db) && role in db.roles && perm in db.perms
    requires RoleClosed(db, role) && db.perms.Keys <= Elements(order)
    requires Closure(db.cat.implies, {db.perms[perm].name}) <= db.cat.bits.Keys
    ensures var end := WithPerms(db, role, Elements(AddedRows(db, role, perm, order)), times);
            && RoleClosed(end, role)
            && NamesOf(end, end.roles[role].perms)
               == NamesOf(db, db.roles[role].perms) + Closure(db.cat.implies, {db.perms[perm].name})
  {
    var added, implied := AddedRows(db, role, perm, order), RowsNamed(db, ImpliedToAdd(db, role, perm));
    assert Elements(added) == {perm} + Elements(added[1..]) && added[1..] == Arrange(implied, order);
    assert implied <= Elements(order);
    ExtendedNames(db, role, perm, Elements(added));
    ClosureContains(db.cat.implies, {db.perms[perm].name});
    var end := WithPerms(db, role, Elements(added), times);
    assert NamesOf(end, end.roles[role].perms) == NamesOf(db, db.roles[role].perms + Elements(added));
  }

  lemma {:induction false} ArrangeIsDistinct(s: set<nat>, order: seq<nat>)
    requires Distinct(order)
    ensures Distinct(Arrange(s, order))
    decreases |order|
  {
    if order != [] {
      ArrangeIsDistinct(s - {order[0]}, order[1..]);
    }
  }
}
