/**
 * What a user may do and hand out (app/core/rbac/delegation.py), how it moves with each
 * commit, and the agreement between the cached masks and the permission rows.
 */
module Delegation {
  import opened Wrappers
  import opened Registry
  import opened Database

  // ------------------------------------------------------------------
  // Effective permissions
  // ------------------------------------------------------------------

  // The bits a user's roles carry in their cached masks.
  function RoleMask(db: Db, u: UserId): Mask {
    set r, b | r in db.roles && (u, r) in db.userRoles && b in db.roles[r].mask :: b
  }

  // The bits of a user's direct grants, looked up in the catalog by name.
  function DirectMask(db: Db, u: UserId): Mask {
    set p | p in db.perms && (u, p) in db.userPerms && db.perms[p].name in db.cat.bits :: db.cat.bits[db.perms[p].name]
  }

  function EffectiveMask(db: Db, u: UserId): Mask {
    RoleMask(db, u) + DirectMask(db, u)
  }

  function RoleNames(db: Db, u: UserId): set<string> {
    set r, p | r in db.roles && (u, r) in db.userRoles && p in db.roles[r].perms && p in db.perms :: db.perms[p].name
  }

  function EffectivePermissions(db: Db, u: UserId): set<string> {
    RoleNames(db, u) + set p | p in db.perms && (u, p) in db.userPerms :: db.perms[p].name
  }

  // The loops of `effective_permission_mask` over the eagerly loaded roles and permissions.
  method EffectivePermissionMask(db: Db, u: UserId, roles: set<RoleId>, perms: set<PermId>) returns (mask: Mask)
    requires roles == set r | r in db.roles && (u, r) in db.userRoles
    requires perms == set p | p in db.perms && (u, p) in db.userPerms
    ensures mask == EffectiveMask(db, u)
  {
    mask := {};
    var todo := roles;
    while todo != {}
      invariant todo <= roles
      invariant mask == set r, b | r in roles - todo && b in db.roles[r].mask :: b
    {
      var role :| role in todo;
      mask := mask + db.roles[role].mask;
      todo := todo - {role};
    }
    assert mask == RoleMask(db, u);
    var rest := perms;
    while rest != {}
      invariant rest <= perms
      invariant mask == RoleMask(db, u) + DirectBits(db, perms - rest)
    {
      var perm :| perm in rest;
      var name := db.perms[perm].name;
      if name in db.cat.bits {
        mask := mask + {db.cat.bits[name]};
      }
      assert perms - (rest - {perm}) == (perms - rest) + {perm};
      rest := rest - {perm};
    }
    assert perms - rest == perms;
  }

  function DirectBits(db: Db, perms: set<PermId>): Mask {
    set p | p in perms && p in db.perms && db.perms[p].name in db.cat.bits :: db.cat.bits[db.perms[p].name]
  }

  // ------------------------------------------------------------------
  // Delegation
  // ------------------------------------------------------------------

  function GrantableRoles(db: Db, actor: UserId): set<RoleId> {
    set l | l in db.grantRoles && (actor, l.0) in db.userRoles :: l.1
  }

  function GrantablePerms(db: Db, actor: UserId): set<PermId> {
    set l | l in db.grantPerms && (actor, l.0) in db.userRoles :: l.1
  }

  predicate CanGrantRole(db: Db, actor: UserId, role: RoleId)
    requires actor in db.users
  {
    db.users[actor].superuser || role in GrantableRoles(db, actor)
  }

  predicate CanGrantPermission(db: Db, actor: UserId, perm: PermId)
    requires actor in db.users
  {
    db.users[actor].superuser || perm in GrantablePerms(db, actor)
  }

  // ------------------------------------------------------------------
  // No silent change: masks and versions
  // ------------------------------------------------------------------

  predicate TakesRoleFrom(db: Db, c: Commit, u: UserId) {
    c.DeleteRole? && (u, c.role) in db.userRoles
  }

  lemma DirectMaskIsVersioned(db: Db, c: Commit, u: UserId)
    requires Wf(db) && Accepts(db, c) && u in db.users
    ensures Apply(db, c).value.users[u].version == db.users[u].version ==>
              DirectMask(Apply(db, c).value, u) == DirectMask(db, u)
  {
  }

  // The bits a user's roles carry other than role `r`.
  function OtherRolesMask(db: Db, u: UserId, r: RoleId): Mask {
    set q, b | q in db.roles && q != r && (u, q) in db.userRoles && b in db.roles[q].mask :: b
  }

  // What deleting a role takes from a holder: its bits that no direct grant and no other
  // role of theirs carries.
  function LostBits(db: Db, c: Commit, u: UserId): Mask {
    if TakesRoleFrom(db, c, u) && c.role in db.roles
    then db.roles[c.role].mask - DirectMask(db, u) - OtherRolesMask(db, u, c.role)
    else {}
  }

  // A commit that leaves the version alone takes the lost bits and changes nothing else.
  lemma UnversionedStep(db: Db, c: Commit, u: UserId)
    requires Wf(db) && Accepts(db, c) && u in db.users
    requires Apply(db, c).value.users[u].version == db.users[u].version
    ensures EffectiveMask(Apply(db, c).value, u) == EffectiveMask(db, u) - LostBits(db, c, u)
    ensures LostBits(db, c, u) <= EffectiveMask(db, u)
  {
    var next := Apply(db, c).value;
    DirectMaskIsVersioned(db, c, u);
    UnbumpedKeepsRoles(db, c, u);
    if TakesRoleFrom(db, c, u) {
      DeletionLeavesOthers(db, c.role, u);
    } else {
      OnlyDeletionUnassigns(db, c, u);
      SameRolesSameMask(db, next, u);
    }
  }

  lemma SameRolesSameMask(db: Db, next: Db, u: UserId)
    requires LinksResolve(db)
    requires forall r | (u, r) in next.userRoles ::
               (u, r) in db.userRoles && r in db.roles && r in next.roles && next.roles[r].mask == db.roles[r].mask
    requires forall r | (u, r) in db.userRoles :: (u, r) in next.userRoles
    ensures RoleMask(next, u) == RoleMask(db, u)
  {
  }

  lemma DeletionLeavesOthers(db: Db, r: RoleId, u: UserId)
    requires Accepts(db, DeleteRole(r)) && (u, r) in db.userRoles
    ensures RoleMask(Apply(db, DeleteRole(r)).value, u) == OtherRolesMask(db, u, r)
    ensures RoleMask(db, u) == OtherRolesMask(db, u, r) + db.roles[r].mask
  {
    var next := Apply(db, DeleteRole(r)).value;
    assert forall q :: (u, q) in next.userRoles <==> (u, q) in db.userRoles && q != r;
    assert next.roles == db.roles - {r};
    forall b | b in RoleMask(db, u) ensures b in OtherRolesMask(db, u, r) + db.roles[r].mask {
      var q :| q in db.roles && (u, q) in db.userRoles && b in db.roles[q].mask;
    }
    forall b | b in RoleMask(next, u) ensures b in OtherRolesMask(db, u, r) {
      var q :| q in next.roles && (u, q) in next.userRoles && b in next.roles[q].mask;
    }
    forall b | b in OtherRolesMask(db, u, r) ensures b in RoleMask(next, u) && b in RoleMask(db, u) {
      var q :| q in db.roles && q != r && (u, q) in db.userRoles && b in db.roles[q].mask;
      assert q in next.roles;
    }
  }

  /**
   * A user's mask moves without their version exactly when a role they hold is deleted and
   * carries some bit that no direct grant and no other role of theirs does.
   */
  lemma MaskMovesSilently(db: Db, c: Commit, u: UserId)
    requires Wf(db) && Accepts(db, c) && u in db.users
    ensures var next := Apply(db, c).value;
            next.users[u].version == db.users[u].version && EffectiveMask(next, u) != EffectiveMask(db, u)
            <==> LostBits(db, c, u) != {}
  {
    if Apply(db, c).value.users[u].version == db.users[u].version {
      UnversionedStep(db, c, u);
      if LostBits(db, c, u) != {} {
        var b :| b in LostBits(db, c, u);
        assert b in EffectiveMask(db, u) && b !in EffectiveMask(Apply(db, c).value, u);
      }
    }
  }

  lemma UnbumpedKeepsRoles(db: Db, c: Commit, u: UserId)
    requires Wf(db) && Accepts(db, c) && u in db.users
    requires Apply(db, c).value.users[u].version == db.users[u].version
    ensures var next := Apply(db, c).value;
            forall r | (u, r) in next.userRoles ::
              (u, r) in db.userRoles && r in db.roles && r in next.roles && next.roles[r].mask == db.roles[r].mask
  {
    var next := Apply(db, c).value;
    ApplyKeepsWf(db, c);
    forall r | (u, r) in next.userRoles
      ensures (u, r) in db.userRoles && r in db.roles && r in next.roles && next.roles[r].mask == db.roles[r].mask
    {
      assert (u, r).1 in next.roles;
      assert (u, r) in db.userRoles && (u, r).1 in db.roles;
      EditsBumpHolders(db, c, r);
      assert u in Holders(db, r) by { assert (u, r).1 == r && (u, r).0 == u; }
    }
  }

  // Whoever changes the mask of an existing role bumps all its holders.
  lemma EditsBumpHolders(db: Db, c: Commit, r: RoleId)
    requires Accepts(db, c) && r in db.roles && r in Apply(db, c).value.roles
    ensures Apply(db, c).value.roles[r].mask != db.roles[r].mask ==> Holders(db, r) <= Bumped(db, c)
  {
  }

  lemma OnlyDeletionUnassigns(db: Db, c: Commit, u: UserId)
    requires Accepts(db, c) && u in db.users && Apply(db, c).value.users[u].version == db.users[u].version
    ensures !TakesRoleFrom(db, c, u) ==>
              forall r | (u, r) in db.userRoles :: (u, r) in Apply(db, c).value.userRoles
  {
  }

  // ------------------------------------------------------------------
  // Cached masks agree with the rows
  // ------------------------------------------------------------------

  function RowBits(db: Db, perms: set<PermId>): Mask {
    set p | p in perms && p in db.perms && db.perms[p].bit.Some? :: db.perms[p].bit.value
  }

  ghost predicate MasksAgree(db: Db) {
    forall r | r in db.roles :: db.roles[r].mask == RowBits(db, db.roles[r].perms)
  }

  predicate IsRowOf(db: Db, p: PermId, name: string) {
    name in db.cat.bits && p in db.perms && db.perms[p].name == name && db.perms[p].bit == Some(db.cat.bits[name])
  }

  // What a successful permission sync establishes.
  ghost predicate Synced(db: Db) {
    Sound(db.cat) && forall n | n in db.cat.bits :: exists p :: IsRowOf(db, p, n)
  }

  // The rows `get_by_names` finds.
  function RowsNamed(db: Db, names: set<string>): set<PermId> {
    set p | p in db.perms && db.perms[p].name in names
  }

  // A new role is created with the mask of the rows it is created with.
  predicate Faithful(db: Db, c: Commit) {
    c.InsertRole? ==> c.row.mask == RowBits(db, c.row.perms)
  }

  lemma RowsNamedCarryTheMask(db: Db, names: set<string>)
    requires Wf(db) && Synced(db) && names <= db.cat.bits.Keys
    ensures RowBits(db, RowsNamed(db, names)) == BitsOf(db.cat, names)
    ensures forall n | n in names :: exists p :: p in RowsNamed(db, names) && db.perms[p].name == n
  {
  }

  lemma RootRowsCarryTheMask(db: Db, allowed: Mask)
    requires Wf(db) && Synced(db)
    ensures RowBits(db, RootRows(db, allowed)) == RootMask(db, allowed)
  {
  }

  lemma SyncedKept(db: Db, c: Commit)
    requires Wf(db) && Synced(db) && Accepts(db, c)
    ensures Synced(Apply(db, c).value)
  {
    var next := Apply(db, c).value;
    RowsAreMonotone(db, c);
    forall n | n in next.cat.bits ensures exists p :: IsRowOf(next, p, n) {
      var p :| IsRowOf(db, p, n);
      assert IsRowOf(next, p, n);
    }
  }

  lemma RowBitsKept(db: Db, c: Commit, perms: set<PermId>)
    requires Wf(db) && Accepts(db, c) && perms <= db.perms.Keys
    ensures RowBits(Apply(db, c).value, perms) == RowBits(db, perms)
  {
  }

  lemma RemovedBitIsGone(db: Db, perms: set<PermId>, p: PermId)
    requires KeysUnique(db) && p in perms && p in db.perms
    ensures RowBits(db, perms - {p}) == RowBits(db, perms) - BitOf(db.perms[p])
  {
  }

  // The role object an edit was made on still had the mask the column has.
  predicate ReadIsCurrent(db: Db, c: Commit) {
    (c.AddPermission? || c.RemovePermission?) && c.role in db.roles && c.perm in db.perms
    && db.perms[c.perm].bit.Some? ==>
      c.read == db.roles[c.role].mask
  }

  lemma AddedBitIsNew(db: Db, perms: set<PermId>, p: PermId)
    requires KeysUnique(db) && p !in perms && p in db.perms
    ensures RowBits(db, perms + {p}) == RowBits(db, perms) + BitOf(db.perms[p])
    ensures RowBits(db, perms) !! BitOf(db.perms[p])
  {
  }

  // Adding to, or taking from, a column exactly one bit it lacks, or has, needs the column.
  lemma AssignedIsExact(column: Mask, read: Mask, bit: nat)
    ensures bit !in column ==> (Assigned(column, read, read + {bit}) == column + {bit} <==> read == column)
    ensures bit in column ==> (Assigned(column, read, read - {bit}) == column - {bit} <==> read == column)
  {
    if bit in read {
      assert read + {bit} == read;
      assert read == (read - {bit}) + {bit};
    } else {
      assert read - {bit} == read;
      assert read == (read + {bit}) - {bit};
    }
    if bit in column {
      assert column == (column - {bit}) + {bit};
    } else {
      assert column == (column + {bit}) - {bit};
    }
  }

  lemma EditKeepsAgreement(db: Db, c: Commit)
    requires Wf(db) && MasksAgree(db) && Accepts(db, c) && (c.AddPermission? || c.RemovePermission?)
    ensures var next := Apply(db, c).value;
            next.roles[c.role].mask == RowBits(next, next.roles[c.role].perms) <==> ReadIsCurrent(db, c)
  {
    var row, perm := db.roles[c.role], db.perms[c.perm];
    var next := Apply(db, c).value;
    RowBitsKept(db, c, next.roles[c.role].perms);
    if perm.bit.Some? {
      AssignedIsExact(row.mask, c.read, perm.bit.value);
      if c.AddPermission? {
        AddedBitIsNew(db, row.perms, c.perm);
      } else {
        RemovedBitIsGone(db, row.perms, c.perm);
        assert perm.bit.value in RowBits(db, row.perms);
      }
    } else {
      EditWithoutBit(db, c);
    }
  }

  lemma EditWithoutBit(db: Db, c: Commit)
    requires Wf(db) && Accepts(db, c) && (c.AddPermission? || c.RemovePermission?) && db.perms[c.perm].bit.None?
    ensures var next := Apply(db, c).value;
            && next.roles[c.role].mask == db.roles[c.role].mask
            && RowBits(db, next.roles[c.role].perms) == RowBits(db, db.roles[c.role].perms)
  {
    assert c.read + {} == c.read && c.read - {} == c.read;
  }

  // Roles an edit does not name, and roles written whole, agree afterwards.
  lemma WholeRolesAgree(db: Db, c: Commit, r: RoleId)
    requires Wf(db) && Synced(db) && MasksAgree(db) && Accepts(db, c) && Faithful(db, c)
    requires r in Apply(db, c).value.roles && (c.AddPermission? || c.RemovePermission? ==> r != c.role)
    ensures var next := Apply(db, c).value; next.roles[r].mask == RowBits(next, next.roles[r].perms)
  {
    if r in db.roles {
      RowBitsKept(db, c, db.roles[r].perms);
    }
    match c
    case InsertRole(_, row) => RowBitsKept(db, c, row.perms);
    case CreateRootRole(_, _, allowed) =>
      RootRowsCarryTheMask(db, allowed);
      RowBitsKept(db, c, RootRows(db, allowed));
    case SyncRootRole(_, allowed) =>
      RootRowsCarryTheMask(db, allowed);
      RowBitsKept(db, c, RootRows(db, allowed));
    case _ =>
  }

  /**
   * A commit keeps every role's cached mask equal to the OR of its permission rows' bits
   * exactly when it is no edit of a mask that moved since the edit's role was loaded.
   */
  lemma AgreementKeptExactly(db: Db, c: Commit)
    requires Wf(db) && Synced(db) && MasksAgree(db) && Accepts(db, c) && Faithful(db, c)
    ensures MasksAgree(Apply(db, c).value) <==> ReadIsCurrent(db, c)
  {
    forall r | r in Apply(db, c).value.roles && (c.AddPermission? || c.RemovePermission? ==> r != c.role)
      ensures var next := Apply(db, c).value; next.roles[r].mask == RowBits(next, next.roles[r].perms)
    {
      WholeRolesAgree(db, c, r);
    }
    if c.AddPermission? || c.RemovePermission? {
      EditKeepsAgreement(db, c);
    }
  }

  // A registered permission is held by name exactly when its bit is in the effective mask.
  lemma NameHeldIffBitHeld(db: Db, u: UserId, name: string)
    requires Wf(db) && Synced(db) && MasksAgree(db) && name in db.cat.bits
    ensures name in EffectivePermissions(db, u) <==> db.cat.bits[name] in EffectiveMask(db, u)
  {
    var bit := db.cat.bits[name];
    var row :| IsRowOf(db, row, name);
    forall p | p in db.perms && (db.perms[p].name == name || db.perms[p].bit == Some(bit)) ensures p == row {
    }
    if bit in RoleMask(db, u) {
      var r :| r in db.roles && (u, r) in db.userRoles && bit in db.roles[r].mask;
      assert row in db.roles[r].perms;
      assert name in RoleNames(db, u);
    }
    if name in RoleNames(db, u) {
      var r, p :| r in db.roles && (u, r) in db.userRoles && p in db.roles[r].perms && p in db.perms
                  && db.perms[p].name == name;
      assert p == row && bit in RowBits(db, db.roles[r].perms);
    }
  }

  // The mask a token carries is `mask_for` of the names, whenever `mask_for` accepts them.
  lemma MaskIsMaskForNames(db: Db, u: UserId)
    requires Wf(db) && Synced(db) && MasksAgree(db)
    ensures var names := EffectivePermissions(db, u);
            MaskFor(db.cat, names).Success? ==> MaskFor(db.cat, names).value == EffectiveMask(db, u)
  {
    var names := EffectivePermissions(db, u);
    if names <= db.cat.bits.Keys {
      forall b ensures b in EffectiveMask(db, u) <==> b in BitsOf(db.cat, names) {
        if b in BitsOf(db.cat, names) {
          var n :| n in names && db.cat.bits[n] == b;
          NameHeldIffBitHeld(db, u, n);
        }
        if b in RoleMask(db, u) {
          var r :| r in db.roles && (u, r) in db.userRoles && b in db.roles[r].mask;
          var p :| p in db.roles[r].perms && p in db.perms && db.perms[p].bit == Some(b);
          var n := db.perms[p].name;
          assert n in RoleNames(db, u);
          var q :| IsRowOf(db, q, n);
          assert q == p;
        }
      }
    }
  }

  // The gate of `permission_required`, on the claims of a token.
  predicate PermissionRequired(cat: Catalog, superuser: bool, mask: Mask, name: string)
    requires name in cat.bits
  {
    superuser || cat.bits[name] in mask
  }
}
