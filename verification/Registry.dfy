/**
 * The permission catalog (app/core/rbac/registry.py): bit positions, masks of names, and
 * the expansion of implied permissions.
 */
module Registry {
  import opened Wrappers
  import opened Sets

  // A mask by its bits; see module Mask for the integer it stands for.
  type Mask = set<nat>

  // The three constants of the catalog file. Every result below holds for any of them, so it
  // outlives the entries that are appended over time.
  datatype Catalog = Catalog(
    bits: map<string, nat>,
    implies: map<string, seq<string>>,
    superuserOnly: set<string>)

  // The two assertions the catalog file makes when it is imported.
  ghost predicate Sound(cat: Catalog) {
    && (forall a, b | a in cat.bits && b in cat.bits :: cat.bits[a] == cat.bits[b] ==> a == b)
    && (forall a | a in cat.bits :: cat.bits[a] < 256)
  }

  function BitsOf(cat: Catalog, names: set<string>): Mask {
    set n | n in names && n in cat.bits :: cat.bits[n]
  }

  datatype UnknownPermission = UnknownPermission

  function MaskFor(cat: Catalog, names: set<string>): Result<Mask, UnknownPermission> {
    if names <= cat.bits.Keys then Success(BitsOf(cat, names)) else Failure(UnknownPermission)
  }

  function NamesForMask(cat: Catalog, mask: Mask): set<string> {
    set n | n in cat.bits && cat.bits[n] in mask
  }

  function FullMask(cat: Catalog): Mask {
    BitsOf(cat, cat.bits.Keys)
  }

  function TenantRoleMask(cat: Catalog): Mask {
    BitsOf(cat, cat.bits.Keys - cat.superuserOnly)
  }

  function Elements<T>(xs: seq<T>): set<T> {
    set x | x in xs
  }

  method ComputeMaskFor(cat: Catalog, names: seq<string>) returns (r: Result<Mask, UnknownPermission>)
    ensures r == MaskFor(cat, Elements(names))
  {
    var mask: Mask := {};
    for i := 0 to |names|
      invariant forall j | 0 <= j < i :: names[j] in cat.bits
      invariant mask == BitsOf(cat, Elements(names[..i]))
    {
      if names[i] !in cat.bits {
        assert names[i] in Elements(names);
        return Failure(UnknownPermission);
      }
      mask := mask + {cat.bits[names[i]]};
      assert Elements(names[..i + 1]) == Elements(names[..i]) + {names[i]};
    }
    assert names[..|names|] == names;
    r := Success(mask);
  }

  // The two conversions undo each other, up to bits the catalog does not know; OR is union;
  // and one mask lies within another exactly when its names do.
  lemma MaskAlgebra(cat: Catalog, a: set<string>, b: set<string>, mask: Mask)
    requires Sound(cat) && a <= cat.bits.Keys && b <= cat.bits.Keys
    ensures NamesForMask(cat, BitsOf(cat, a)) == a
    ensures BitsOf(cat, NamesForMask(cat, mask)) == mask * FullMask(cat)
    ensures BitsOf(cat, a + b) == BitsOf(cat, a) + BitsOf(cat, b)
    ensures BitsOf(cat, a) - BitsOf(cat, b) == {} <==> a <= b
  {
    assert NamesForMask(cat, BitsOf(cat, a)) == a;
    assert NamesForMask(cat, BitsOf(cat, b)) == b;
    if BitsOf(cat, a) - BitsOf(cat, b) == {} {
      forall n | n in a ensures n in b {
        assert cat.bits[n] in BitsOf(cat, a);
        assert cat.bits[n] !in BitsOf(cat, a) - BitsOf(cat, b);
        assert n in NamesForMask(cat, BitsOf(cat, b));
      }
    }
  }

  // ------------------------------------------------------------------
  // Implied permissions
  // ------------------------------------------------------------------

  type Implications = map<string, seq<string>>

  predicate Implied(imp: Implications, from: string, to: string) {
    from in imp && to in imp[from]
  }

  function OneStep(imp: Implications, s: set<string>): set<string> {
    set n, to | n in s && n in imp && to in imp[n] :: to
  }

  ghost predicate IsClosed(imp: Implications, s: set<string>) {
    forall n, to | n in s && Implied(imp, n, to) :: to in s
  }

  function Conclusions(imp: Implications): set<string> {
    OneStep(imp, imp.Keys)
  }

  lemma StepInConclusions(imp: Implications, s: set<string>)
    ensures OneStep(imp, s) <= Conclusions(imp)
    ensures IsClosed(imp, s) <==> OneStep(imp, s) <= s
  {
  }

  lemma ShrinkingRest(universe: set<string>, a: set<string>, b: set<string>)
    requires a <= b && exists x :: x in universe && x in b && x !in a
    ensures |universe - b| < |universe - a|
  {
    var x :| x in universe && x in b && x !in a;
    assert universe - b <= universe - a - {x};
    SubsetSize(universe - b, universe - a - {x});
  }

  // The transitive expansion, one generation at a time.
  ghost function Closure(imp: Implications, s: set<string>): set<string>
    decreases |Conclusions(imp) - s|
  {
    if IsClosed(imp, s) then s
    else
      StepInConclusions(imp, s);
      ShrinkingRest(Conclusions(imp), s, s + OneStep(imp, s));
      Closure(imp, s + OneStep(imp, s))
  }

  // It is the least superset closed under implication, cycles in the map or not.
  lemma {:induction false} ClosureIsLeast(imp: Implications, s: set<string>)
    ensures s <= Closure(imp, s) && IsClosed(imp, Closure(imp, s))
    ensures forall t :: s <= t && IsClosed(imp, t) ==> Closure(imp, s) <= t
    decreases |Conclusions(imp) - s|
  {
    if !IsClosed(imp, s) {
      StepInConclusions(imp, s);
      ShrinkingRest(Conclusions(imp), s, s + OneStep(imp, s));
      ClosureIsLeast(imp, s + OneStep(imp, s));
      forall t | s <= t && IsClosed(imp, t) ensures Closure(imp, s) <= t {
        forall to | to in OneStep(imp, s) ensures to in t {
          var n :| n in s && Implied(imp, n, to);
        }
      }
    }
  }

  lemma ClosureLaws(imp: Implications, a: set<string>, b: set<string>)
    ensures Closure(imp, Closure(imp, a)) == Closure(imp, a)
    ensures a <= b ==> Closure(imp, a) <= Closure(imp, b)
    ensures Closure(imp, a + b) == Closure(imp, a) + Closure(imp, b)
  {
    ClosureIsLeast(imp, a);
    ClosureIsLeast(imp, b);
    ClosureIsLeast(imp, a + b);
    ClosureIsLeast(imp, Closure(imp, a));
    assert IsClosed(imp, Closure(imp, a) + Closure(imp, b));
  }

  // One pass over a frontier: adds what its names imply and returns what was new.
  method ExpandFrontier(imp: Implications, frontier: set<string>, known: set<string>)
    returns (result: set<string>, next: set<string>)
    ensures result == known + OneStep(imp, frontier) && next == result - known
  {
    result, next := known, {};
    var todo := frontier;
    while todo != {}
      invariant todo <= frontier && next == result - known
      invariant result == known + OneStep(imp, frontier - todo)
    {
      var name :| name in todo;
      if name in imp {
        ghost var before := result;
        for i := 0 to |imp[name]|
          invariant next == result - known
          invariant result == before + Elements(imp[name][..i])
        {
          var implied := imp[name][i];
          if implied !in result {
            next := next + {implied};
          }
          result := result + {implied};
          assert Elements(imp[name][..i + 1]) == Elements(imp[name][..i]) + {implied};
        }
        assert imp[name][..|imp[name]|] == imp[name];
      }
      assert frontier - (todo - {name}) == (frontier - todo) + {name};
      todo := todo - {name};
    }
    assert frontier - todo == frontier;
  }

  lemma StepWithin(imp: Implications, s: set<string>, least: set<string>)
    requires s <= least && IsClosed(imp, least)
    ensures OneStep(imp, s) <= least
  {
  }

  lemma ClosureContains(imp: Implications, s: set<string>)
    ensures s <= Closure(imp, s) && IsClosed(imp, Closure(imp, s))
  {
    ClosureIsLeast(imp, s);
  }

  lemma ClosureWithin(imp: Implications, s: set<string>, t: set<string>)
    requires s <= t && OneStep(imp, t) <= t
    ensures Closure(imp, s) <= t
  {
    StepInConclusions(imp, t);
    ClosureIsLeast(imp, s);
  }

  lemma StepOfUnion(imp: Implications, a: set<string>, b: set<string>)
    ensures OneStep(imp, a + b) == OneStep(imp, a) + OneStep(imp, b)
  {
  }

  lemma FrontierShrinks(bound: set<string>, before: set<string>, after: set<string>)
    requires before <= after <= bound
    ensures after == before || |bound - after| < |bound - before|
  {
    if x :| x in after && x !in before {
      ShrinkingRest(bound, before, after);
    }
  }

  // The worklist loop, below any closed bound of the requested names.
  method Saturate(imp: Implications, names: set<string>, ghost bound: set<string>) returns (result: set<string>)
    requires names <= bound && IsClosed(imp, bound)
    ensures names <= result <= bound && OneStep(imp, result) <= result
  {
    result := names;
    var frontier := result;
    ghost var done: set<string> := {};
    while frontier != {}
      invariant names <= result <= bound
      invariant result == done + frontier && OneStep(imp, done) <= result
      decreases |bound - result|, |frontier|
    {
      StepWithin(imp, frontier, bound);
      StepOfUnion(imp, done, frontier);
      ghost var before := result;
      var next;
      result, next := ExpandFrontier(imp, frontier, result);
      FrontierShrinks(bound, before, result);
      done, frontier := before, next;
    }
    assert done == result;
  }

  method ExpandImplied(imp: Implications, names: seq<string>) returns (result: set<string>)
    ensures result == Closure(imp, Elements(names))
  {
    ClosureContains(imp, Elements(names));
    result := Saturate(imp, Elements(names), Closure(imp, Elements(names)));
    ClosureWithin(imp, Elements(names), result);
  }

  // ------------------------------------------------------------------
  // The catalog as released
  // ------------------------------------------------------------------

  // The names in bit order: the position of a name is its bit.
  const NAMES: seq<string> := [
    "role:create", "role:read", "role:read.id", "role:update", "role:delete",
    "role:add-permission", "role:delete-permission", "permission:read", "permission:read.id",
    "user:read", "user:read.id", "user:update", "user:deactivate",
    "tenant:create", "tenant:read", "tenant:read.id", "tenant:update", "tenant:deactivate",
    "user:create"]

  const IMPLIES: map<string, seq<string>> := map[
    "role:update" := ["role:read", "role:read.id"],
    "role:delete" := ["role:read", "role:read.id"],
    "role:add-permission" := ["role:read.id"],
    "role:delete-permission" := ["role:read.id"],
    "user:update" := ["user:read", "user:read.id"],
    "user:deactivate" := ["user:read.id"],
    "permission:read.id" := ["permission:read"],
    "tenant:update" := ["tenant:read.id"],
    "tenant:deactivate" := ["tenant:read.id"]]

  const SUPERUSER_ONLY: set<string> :=
    {"tenant:create", "tenant:read", "tenant:read.id", "tenant:update", "tenant:deactivate"}

  function Numbered(names: seq<string>): map<string, nat> {
    if names == [] then map[] else Numbered(names[..|names| - 1])[names[|names| - 1] := |names| - 1]
  }

  const RELEASE := Catalog(Numbered(NAMES), IMPLIES, SUPERUSER_ONLY)

  lemma {:induction false} NumberedIsIndex(names: seq<string>)
    requires forall i, j | 0 <= i < j < |names| :: names[i] != names[j]
    ensures Numbered(names).Keys == Elements(names)
    ensures forall i | 0 <= i < |names| :: Numbered(names)[names[i]] == i
  {
    if names != [] {
      NumberedIsIndex(names[..|names| - 1]);
    }
  }

  lemma NamesAreDistinct()
    ensures forall i, j | 0 <= i < j < |NAMES| :: NAMES[i] != NAMES[j]
  {
  }

  lemma ReleaseIsSound()
    ensures Sound(RELEASE)
  {
    NamesAreDistinct();
    NumberedIsIndex(NAMES);
    assert forall a | a in RELEASE.bits :: a in NAMES;
  }

  // No permission a tenant may hold implies one it may not, and nothing implies an
  // unregistered name: expanding a tenant's request never leaves its ceiling's reach.
  lemma ImpliedStaysWithinTenantNames(names: set<string>)
    requires names <= Elements(NAMES) - SUPERUSER_ONLY
    ensures Closure(IMPLIES, names) <= Elements(NAMES) - SUPERUSER_ONLY
  {
    ClosureIsLeast(IMPLIES, names);
    var tenantNames := Elements(NAMES) - SUPERUSER_ONLY;
    forall n, to | n in tenantNames && Implied(IMPLIES, n, to) ensures to in tenantNames {
      ImpliedNames(n, to);
    }
  }

  lemma ImpliedNames(from: string, to: string)
    requires Implied(IMPLIES, from, to) && from !in SUPERUSER_ONLY
    ensures to in NAMES && to !in SUPERUSER_ONLY
  {
  }
}
