/**
  The role hierarchy: the six operations on it, each with its own guard, and who
  may end up above whom. Here guards and write are one moment; RoleRaces takes
  them apart.

  A role's place in the stack is its position, ties broken by its id. A
  permission mask is the set of its bits. Sessions' cached roles are those of the
  store, as the handlers leave them.
 */
module Roles {
  import opened Wrappers
  import opened Collections

  const OWNER_RANK := 0x7FFF_FFFF_FFFF_FFFF

  /** The two bits the hierarchy itself asks about; the others are any numbers. */
  const MANAGE_ROLES := 9
  const ADMINISTRATOR := 31

  datatype Managed = Unmanaged | Everyone | Registered | Admin

  datatype Role = Role(position: int, managed: Managed, perms: set<nat>)
  {
    predicate AutoAssigned() {
      managed.Everyone? || managed.Registered?
    }
  }

  /** The role table, explicit grants, who has an account, and the two roles held implicitly. */
  datatype State = State(
    roles: map<int, Role>, grants: map<int, set<int>>, registered: set<int>,
    everyone: int, registeredRole: int, owner: Option<int>)

  /** EffectiveRoleIDs, of roles that exist. */
  function Held(s: State, u: int): (ids: set<int>)
    ensures ids <= s.roles.Keys
  {
    var explicit := if u in s.grants then s.grants[u] else {};
    var implicit := if u in s.registered then {s.everyone, s.registeredRole} else {s.everyone};
    set x | x in explicit + implicit && x in s.roles
  }

  /** HighestRolePosition. */
  ghost function Highest(roles: map<int, Role>, ids: set<int>): (h: int)
    requires ids <= roles.Keys
    ensures h >= 0 && forall x :: x in ids ==> roles[x].position <= h
    ensures h == 0 || exists x :: x in ids && roles[x].position == h
  {
    if x :| x in ids then
      var rest := Highest(roles, ids - {x});
      if roles[x].position > rest then roles[x].position else rest
    else 0
  }

  ghost function Rank(s: State, u: int): int {
    if s.owner == Some(u) then OWNER_RANK else Highest(s.roles, Held(s, u))
  }

  /** Whether a user's mask covers what is asked; the owner's covers everything. */
  ghost predicate Has(s: State, u: int, want: set<nat>) {
    || s.owner == Some(u)
    || (exists x :: x in Held(s, u) && ADMINISTRATOR in s.roles[x].perms)
    || (forall bit :: bit in want ==> exists x :: x in Held(s, u) && bit in s.roles[x].perms)
  }

  ghost predicate MayManage(s: State, u: int) {
    Has(s, u, {MANAGE_ROLES})
  }

  // --- the stack ------------------------------------------------------------

  predicate Beneath(roles: map<int, Role>, x: int, y: int)
    requires x in roles && y in roles
  {
    roles[x].position < roles[y].position || (roles[x].position == roles[y].position && x < y)
  }

  /** All roles but everyone's, bottom up. */
  ghost predicate IsStack(s: State, stack: seq<int>) {
    && (forall x :: x in stack <==> x in s.roles && !s.roles[x].managed.Everyone?)
    && (forall i, j :: 0 <= i < j < |stack| ==> Beneath(s.roles, stack[i], stack[j]))
  }

  /** One above the highest role that is not the admin role. */
  ghost predicate NextPosition(s: State, next: int) {
    && (forall x :: x in s.roles && !s.roles[x].managed.Admin? ==> s.roles[x].position < next)
    && (next == 1 || exists x :: x in s.roles && !s.roles[x].managed.Admin? && s.roles[x].position == next - 1)
    && next >= 1
  }

  ghost predicate WithinStack(s: State, position: int) {
    exists x :: x in s.roles && position <= s.roles[x].position
  }

  /** Where the caller's own authority stops, as an index into the stack. */
  ghost predicate IsCeiling(s: State, actor: int, stack: seq<int>, ceiling: nat)
    requires IsStack(s, stack)
  {
    if s.owner == Some(actor) then ceiling == |stack|
    else
      && ceiling <= |stack|
      && (forall x :: x in stack ==> (Index(stack, x) < ceiling <==> s.roles[x].position < Rank(s, actor)))
  }

  // --- the operations -------------------------------------------------------

  datatype Action =
    | Create(id: int, perms: set<nat>, next: int)
    | Update(id: int, rename: bool, newPerms: Option<set<nat>>, position: Option<int>)
    | Delete(id: int)
    | Assign(user: int, id: int)
    | Unassign(user: int, id: int)
    | Reorder(stack: seq<int>, order: seq<int>, ceiling: nat)

  ghost predicate Reach(s: State, actor: int, id: int) {
    id in s.roles && s.roles[id].position < Rank(s, actor)
  }

  ghost predicate Outranks(s: State, actor: int, user: int) {
    actor == user || Rank(s, user) < Rank(s, actor)
  }

  /** Bits flipped by an edit. */
  function Flipped(before: set<nat>, after: set<nat>): set<nat> {
    (before - after) + (after - before)
  }

  function NewPosition(next: int, ceiling: int): int {
    if next >= ceiling then ceiling - 1 else next
  }

  /** What each handler demands before it writes anything. */
  ghost predicate Allowed(s: State, actor: int, a: Action) {
    MayManage(s, actor) &&
    match a
    case Create(id, perms, next) =>
      && id !in s.roles && Has(s, actor, perms)
      && NextPosition(s, next) && NewPosition(next, Rank(s, actor)) >= 1
    case Update(id, rename, newPerms, position) =>
      && Reach(s, actor, id)
      && (rename || position.Some? ==> !s.roles[id].managed.Everyone?)
      && (newPerms.Some? ==> Has(s, actor, Flipped(s.roles[id].perms, newPerms.value)))
      && (position.Some? ==>
            1 <= position.value && WithinStack(s, position.value) && position.value < Rank(s, actor))
    case Delete(id) => Reach(s, actor, id) && s.roles[id].managed.Unmanaged?
    case Assign(user, id) => Reach(s, actor, id) && !s.roles[id].AutoAssigned() && Outranks(s, actor, user)
    case Unassign(user, id) => Reach(s, actor, id) && !s.roles[id].AutoAssigned() && Outranks(s, actor, user)
    case Reorder(stack, order, ceiling) =>
      && IsStack(s, stack) && |stack| < OWNER_RANK && IsCeiling(s, actor, stack, ceiling)
      && NamesEachOnce(stack, order) && MovesBelow(stack, order, ceiling)
  }

  ghost predicate NamesEachOnce(stack: seq<int>, order: seq<int>) {
    |order| == |stack| && Distinct(order) && forall i :: 0 <= i < |order| ==> order[i] in stack
  }

  ghost predicate MovesBelow(stack: seq<int>, order: seq<int>, ceiling: nat) {
    forall to :: 0 <= to < |order| ==> MayMove(stack, order, ceiling, to)
  }

  /** A role that changes its index does so below the ceiling. */
  predicate MayMove(stack: seq<int>, order: seq<int>, ceiling: nat, to: nat)
    requires to < |order|
  {
    var from := Index(stack, order[to]);
    from == to || (from < ceiling && to < ceiling)
  }

  function Granted(s: State, u: int, ids: set<int>): State {
    s.(grants := s.grants[u := ids])
  }

  function Explicit(s: State, u: int): set<int> {
    if u in s.grants then s.grants[u] else {}
  }

  function Renumbered(roles: map<int, Role>, order: seq<int>): map<int, Role> {
    map x | x in roles :: if x in order then roles[x].(position := Index(order, x) + 1) else roles[x]
  }

  ghost function Next(s: State, actor: int, a: Action): State
    requires Allowed(s, actor, a)
  {
    match a
    case Create(id, perms, next) =>
      s.(roles := s.roles[id := Role(NewPosition(next, Rank(s, actor)), Unmanaged, perms)])
    case Update(id, _, newPerms, position) =>
      var role := s.roles[id];
      var role1 := if newPerms.Some? then role.(perms := newPerms.value) else role;
      s.(roles := s.roles[id := if position.Some? then role1.(position := position.value) else role1])
    case Delete(id) => s.(roles := s.roles - {id}, grants := map u | u in s.grants :: s.grants[u] - {id})
    case Assign(user, id) => Granted(s, user, Explicit(s, user) + {id})
    case Unassign(user, id) => Granted(s, user, Explicit(s, user) - {id})
    case Reorder(_, order, _) => s.(roles := Renumbered(s.roles, order))
  }

  /** The everyone role lies beneath all others, no position reaches the owner, and only real roles are granted. */
  ghost predicate Valid(s: State) {
    && s.everyone in s.roles && s.roles[s.everyone].managed.Everyone? && s.roles[s.everyone].position == 0
    && s.registeredRole in s.roles && s.roles[s.registeredRole].managed.Registered?
    && (forall x :: x in s.roles && x != s.everyone ==>
          !s.roles[x].managed.Everyone? && 1 <= s.roles[x].position < OWNER_RANK)
    && (forall u :: u in s.grants ==> s.grants[u] <= s.roles.Keys)
  }

  // --- a step changes nothing from the actor's rank up ----------------------

  /** Which roles there are from a rank up, where they stand, and who holds them, is what it was. */
  ghost predicate SameFrom(s: State, s': State, k: int) {
    && s'.owner == s.owner
    && (forall x :: (x in s.roles && s.roles[x].position >= k) <==> (x in s'.roles && s'.roles[x].position >= k))
    && (forall x :: x in s.roles && s.roles[x].position >= k ==> s'.roles[x].position == s.roles[x].position)
    && (forall u, x :: x in s.roles && s.roles[x].position >= k ==> (x in Held(s, u) <==> x in Held(s', u)))
  }

  lemma CreateSame(s: State, actor: int, id: int, perms: set<nat>, next: int)
    requires Valid(s) && s.owner != Some(actor) && Allowed(s, actor, Create(id, perms, next))
    ensures var s' := Next(s, actor, Create(id, perms, next));
      Valid(s') && SameFrom(s, s', Rank(s, actor))
  {
    RankBelowOwner(s, actor);
    hide Has, Rank;
  }

  lemma UpdateSame(s: State, actor: int, a: Action)
    requires Valid(s) && s.owner != Some(actor) && a.Update? && Allowed(s, actor, a)
    ensures Valid(Next(s, actor, a)) && SameFrom(s, Next(s, actor, a), Rank(s, actor))
  {
    hide Has, Highest;
  }

  lemma DeleteSame(s: State, actor: int, id: int)
    requires Valid(s) && s.owner != Some(actor) && Allowed(s, actor, Delete(id))
    ensures Valid(Next(s, actor, Delete(id))) && SameFrom(s, Next(s, actor, Delete(id)), Rank(s, actor))
  {
    hide Has, Highest;
  }

  /** Only one user's grants change, and only by one role. */
  lemma GrantChanges(s: State, user: int, id: int, ids: set<int>)
    requires Valid(s) && id in s.roles && (ids == Explicit(s, user) + {id} || ids == Explicit(s, user) - {id})
    ensures Valid(Granted(s, user, ids))
    ensures forall u, x :: x != id && x in s.roles ==> (x in Held(s, u) <==> x in Held(Granted(s, user, ids), u))
  {}

  lemma GrantSame(s: State, actor: int, a: Action)
    requires Valid(s) && s.owner != Some(actor) && (a.Assign? || a.Unassign?) && Allowed(s, actor, a)
    ensures Valid(Next(s, actor, a)) && SameFrom(s, Next(s, actor, a), Rank(s, actor))
  {
    var ids := if a.Assign? then Explicit(s, a.user) + {a.id} else Explicit(s, a.user) - {a.id};
    GrantChanges(s, a.user, a.id, ids);
    hide Has, Rank, Held, Valid;
  }

  lemma StepSame(s: State, actor: int, a: Action)
    requires Valid(s) && s.owner != Some(actor) && Allowed(s, actor, a) && !a.Reorder?
    ensures Valid(Next(s, actor, a)) && SameFrom(s, Next(s, actor, a), Rank(s, actor))
  {
    hide Valid, SameFrom, Allowed, Next;
    match a
    case Create(id, perms, next) => CreateSame(s, actor, id, perms, next);
    case Update(_, _, _, _) => UpdateSame(s, actor, a);
    case Delete(id) => DeleteSame(s, actor, id);
    case Assign(_, _) => GrantSame(s, actor, a);
    case Unassign(_, _) => GrantSame(s, actor, a);
  }

  /** Everybody from there up keeps their exact rank, and everybody below stays below. */
  lemma RanksFrom(s: State, s': State, k: int, u: int)
    requires SameFrom(s, s', k) && k <= OWNER_RANK
    ensures Rank(s, u) >= k ==> Rank(s', u) == Rank(s, u)
    ensures Rank(s, u) < k ==> Rank(s', u) < k
  {
    if s.owner != Some(u) {
      TopHeld(s, s', k, u);
      TopHeld(s', s, k, u);
    }
  }

  /** Whatever a user holds from the rank up, they hold afterwards. */
  lemma TopHeld(s: State, s': State, k: int, u: int)
    requires SameFrom(s, s', k) || SameFrom(s', s, k)
    ensures Highest(s.roles, Held(s, u)) >= k ==> Highest(s'.roles, Held(s', u)) >= Highest(s.roles, Held(s, u))
  {
    var h := Highest(s.roles, Held(s, u));
    if h >= k && h > 0 {
      var x :| x in Held(s, u) && s.roles[x].position == h;
      assert x in s'.roles && s'.roles[x].position == h;
      assert x in Held(s', u);
    }
  }

  /**
    One step of anybody but the owner: whoever stood at or above the actor keeps
    their exact rank, and whoever stood below stays below.
   */
  lemma NobodyIsLifted(s: State, actor: int, a: Action, u: int)
    requires Valid(s) && s.owner != Some(actor) && Allowed(s, actor, a) && !a.Reorder?
    ensures var s' := Next(s, actor, a);
      && (Rank(s, u) >= Rank(s, actor) ==> Rank(s', u) == Rank(s, u))
      && (Rank(s, u) < Rank(s, actor) ==> Rank(s', u) < Rank(s, actor))
  {
    StepSame(s, actor, a);
    RankBelowOwner(s, actor);
    hide SameFrom, Next, Allowed, Rank;
    RanksFrom(s, Next(s, actor, a), Rank(s, actor), u);
  }

  lemma RankBelowOwner(s: State, u: int)
    requires Valid(s)
    ensures s.owner != Some(u) ==> Rank(s, u) < OWNER_RANK
    ensures Rank(s, u) <= OWNER_RANK
  {}

  // --- reordering -----------------------------------------------------------

  lemma StackDistinct(s: State, stack: seq<int>)
    requires IsStack(s, stack)
    ensures Distinct(stack)
  {}

  lemma StackOrder(s: State, stack: seq<int>)
    requires IsStack(s, stack)
    ensures forall x, y :: x in stack && y in stack ==> (Index(stack, x) < Index(stack, y) <==> Beneath(s.roles, x, y))
  {
    forall x, y | x in stack && y in stack
      ensures Index(stack, x) < Index(stack, y) <==> Beneath(s.roles, x, y)
    {
      hide Index;
      var i, j := Index(stack, x), Index(stack, y);
      assert stack[i] == x && stack[j] == y;
    }
  }

  /**
    An accepted reorder names every role once, leaves everything from the
    caller's ceiling up where it is, and moves the rest only among themselves.
   */
  lemma ReorderPermutes(s: State, actor: int, stack: seq<int>, order: seq<int>, ceiling: nat)
    requires Allowed(s, actor, Reorder(stack, order, ceiling))
    ensures |order| == |stack| && Distinct(order) && Distinct(stack)
    ensures forall x :: x in order <==> x in stack
    ensures forall i :: ceiling <= i < |stack| ==> order[i] == stack[i]
    ensures forall x :: x in stack ==> (Index(order, x) < ceiling <==> Index(stack, x) < ceiling)
    ensures forall x :: x in stack && Index(stack, x) >= ceiling ==> Index(order, x) == Index(stack, x)
  {
    StackDistinct(s, stack);
    hide IsStack, IsCeiling, Index;
    forall x
      ensures x in order <==> x in stack
    {
      Rearranged(order, stack, x);
    }
    forall i | ceiling <= i < |stack|
      ensures order[i] == stack[i]
    {
      assert MayMove(stack, order, ceiling, i) && order[i] in stack;
    }
    forall x | x in stack
      ensures Index(order, x) < ceiling <==> Index(stack, x) < ceiling
      ensures Index(stack, x) >= ceiling ==> Index(order, x) == Index(stack, x)
    {
      var to := Index(order, x);
      assert x in order && order[to] == x;
      assert MayMove(stack, order, ceiling, to);
    }
  }

  /** Whoever stands below another role stands below it still, if that one was not the caller's to move. */
  lemma ReorderKeepsBelow(
      s: State, actor: int, stack: seq<int>, order: seq<int>, ceiling: nat, x: int, m: int)
    requires Valid(s) && Allowed(s, actor, Reorder(stack, order, ceiling))
    requires x in s.roles && m in s.roles && Beneath(s.roles, x, m)
    requires s.owner != Some(actor) && Rank(s, actor) <= s.roles[m].position
    ensures Beneath(Renumbered(s.roles, order), x, m)
  {
    ReorderPermutes(s, actor, stack, order, ceiling);
    StackOrder(s, stack);
    assert m in stack && Index(stack, m) >= ceiling;
    if x in stack {
      assert Index(stack, x) < Index(stack, m);
    }
    hide Index, Has, Rank, MayMove;
  }

  // --- whom a reorder puts below its caller ---------------------------------

  /** No two roles of the stack share a position. */
  ghost predicate NoTies(s: State) {
    forall x, y :: x in s.roles && y in s.roles && x != y ==> s.roles[x].position != s.roles[y].position
  }

  /** Without ties the caller's top role sits exactly at the ceiling. */
  lemma TopAtCeiling(s: State, actor: int, stack: seq<int>, order: seq<int>, ceiling: nat, top: int)
    requires Valid(s) && NoTies(s) && s.owner != Some(actor) && Allowed(s, actor, Reorder(stack, order, ceiling))
    requires top in Held(s, actor) && s.roles[top].position == Rank(s, actor) > 0
    ensures top in stack && Index(stack, top) == ceiling
  {
    StackDistinct(s, stack);
    StackOrder(s, stack);
    hide Has, MayMove, Index, Rank;
    if Index(stack, top) != ceiling {
      IndexOfElement(stack, ceiling);
    }
  }

  /** Where the caller ranks after an accepted reorder: just above everything beneath the ceiling. */
  lemma RankAfterReorder(s: State, actor: int, stack: seq<int>, order: seq<int>, ceiling: nat)
    requires Valid(s) && s.owner != Some(actor) && Allowed(s, actor, Reorder(stack, order, ceiling))
    ensures var s' := s.(roles := Renumbered(s.roles, order));
      && (Rank(s, actor) == 0 ==> ceiling == 0 && Rank(s', actor) == 0)
      && (Rank(s, actor) > 0 ==> Rank(s', actor) > ceiling)
      && (NoTies(s) && Rank(s, actor) > 0 ==> Rank(s', actor) == ceiling + 1)
  {
    var s' := s.(roles := Renumbered(s.roles, order));
    var r := Rank(s, actor);
    assert Held(s', actor) == Held(s, actor);
    ReorderPermutes(s, actor, stack, order, ceiling);
    if r == 0 {
      assert forall x :: x in Held(s, actor) ==> x == s.everyone;
      assert forall x :: x in stack ==> s.roles[x].position >= 1;
      assert stack != [] ==> stack[0] in stack && Index(stack, stack[0]) == 0;
    } else {
      var top :| top in Held(s, actor) && s.roles[top].position == r;
      assert top in stack && Index(stack, top) >= ceiling;
      assert s'.roles[top].position == Index(stack, top) + 1;
      if NoTies(s) {
        TopAtCeiling(s, actor, stack, order, ceiling, top);
        forall x | x in Held(s, actor)
          ensures s'.roles[x].position <= ceiling + 1
        {
          if x in stack && x != top {
            assert s.roles[x].position < r;
          }
        }
      }
    }
  }

  /**
    What stood strictly below the caller stands strictly below after a reorder,
    and with no ties nothing else does: the set of roles below is unchanged.
   */
  lemma ReorderKeepsRolesBelow(
      s: State, actor: int, stack: seq<int>, order: seq<int>, ceiling: nat, x: int)
    requires Valid(s) && s.owner != Some(actor) && Allowed(s, actor, Reorder(stack, order, ceiling))
    requires x in s.roles
    ensures var s' := s.(roles := Renumbered(s.roles, order));
      && (s.roles[x].position < Rank(s, actor) ==> s'.roles[x].position < Rank(s', actor))
      && (NoTies(s) ==> (s'.roles[x].position < Rank(s', actor) <==> s.roles[x].position < Rank(s, actor)))
  {
    RankAfterReorder(s, actor, stack, order, ceiling);
    ReorderPermutes(s, actor, stack, order, ceiling);
    hide Has, MayMove, Index, NoTies;
    if x in stack {
      assert Index(stack, x) < ceiling <==> s.roles[x].position < Rank(s, actor);
    } else {
      assert x == s.everyone;
    }
  }

  /** So is the set of users below. */
  lemma ReorderKeepsUsersBelow(s: State, actor: int, stack: seq<int>, order: seq<int>, ceiling: nat, u: int)
    requires Valid(s) && s.owner != Some(actor) && Allowed(s, actor, Reorder(stack, order, ceiling))
    ensures var s' := s.(roles := Renumbered(s.roles, order));
      && (Rank(s, u) < Rank(s, actor) ==> Rank(s', u) < Rank(s', actor))
      && (NoTies(s) ==> (Rank(s', u) < Rank(s', actor) <==> Rank(s, u) < Rank(s, actor)))
  {
    var s' := s.(roles := Renumbered(s.roles, order));
    var a := Reorder(stack, order, ceiling);
    ReorderValid(s, actor, a);
    assert s' == Next(s, actor, a);
    assert Held(s', u) == Held(s, u);
    forall x | x in s.roles
      ensures s.roles[x].position < Rank(s, actor) ==> s'.roles[x].position < Rank(s', actor)
      ensures NoTies(s) ==> (s'.roles[x].position < Rank(s', actor) <==> s.roles[x].position < Rank(s, actor))
    {
      ReorderKeepsRolesBelow(s, actor, stack, order, ceiling, x);
    }
    RankBelowOwner(s, actor);
    RankBelowOwner(s', actor);
    RankAfterReorder(s, actor, stack, order, ceiling);
    hide Allowed, NoTies, Held, Renumbered;
    BelowMeansAllBelow(s, u, Rank(s, actor));
    BelowMeansAllBelow(s', u, Rank(s', actor));
  }

  /** A user ranks below a positive rank exactly when every role they hold does, the owner never. */
  lemma BelowMeansAllBelow(s: State, u: int, r: int)
    requires 0 <= r < OWNER_RANK
    ensures Rank(s, u) < r <==> r > 0 && s.owner != Some(u) && forall x :: x in Held(s, u) ==> s.roles[x].position < r
  {}

  lemma ReorderValid(s: State, actor: int, a: Action)
    requires Valid(s) && a.Reorder? && Allowed(s, actor, a)
    ensures Valid(Next(s, actor, a))
  {
    var s' := Next(s, actor, a);
    ReorderPermutes(s, actor, a.stack, a.order, a.ceiling);
    assert forall x :: x in s.roles && x != s.everyone ==> x in a.order;
    hide Has, Rank, MayMove, Index;
  }

  // --- coalitions -----------------------------------------------------------

  /** Every role the user holds is beneath one role. */
  ghost predicate StandsBelow(s: State, u: int, m: int)
    requires m in s.roles
  {
    forall x :: x in Held(s, u) ==> Beneath(s.roles, x, m)
  }

  ghost predicate StandsAtMost(s: State, u: int, m: int)
    requires m in s.roles
  {
    forall x :: x in Held(s, u) ==> x == m || Beneath(s.roles, x, m)
  }

  lemma AtMostRank(s: State, u: int, m: int)
    requires m in s.roles && StandsAtMost(s, u, m) && s.owner != Some(u)
    requires s.roles[m].position >= 0
    ensures Rank(s, u) <= s.roles[m].position
  {}

  lemma SameFromKeepsBelow(s: State, s': State, k: int, m: int, u: int)
    requires SameFrom(s, s', k) && m in s.roles && k <= s.roles[m].position
    ensures m in s'.roles && s'.roles[m].position == s.roles[m].position
    ensures StandsBelow(s, u, m) ==> StandsBelow(s', u, m)
    ensures StandsAtMost(s, u, m) ==> StandsAtMost(s', u, m)
  {
    hide Held;
    forall x | x in Held(s', u)
      ensures s'.roles[x].position < k
           || (x in s.roles && x in Held(s, u) && s'.roles[x].position == s.roles[x].position)
    {}
  }

  lemma ReorderStands(s: State, actor: int, a: Action, m: int, u: int)
    requires Valid(s) && s.owner != Some(actor) && a.Reorder? && Allowed(s, actor, a)
    requires m in s.roles && Rank(s, actor) <= s.roles[m].position
    ensures var s' := Next(s, actor, a);
      && m in s'.roles
      && (StandsBelow(s, u, m) ==> StandsBelow(s', u, m))
      && (StandsAtMost(s, u, m) ==> StandsAtMost(s', u, m))
  {
    var s' := Next(s, actor, a);
    forall x | x in Held(s, u) && Beneath(s.roles, x, m)
      ensures Beneath(s'.roles, x, m)
    {
      hide Allowed, Valid, Rank;
      ReorderKeepsBelow(s, actor, a.stack, a.order, a.ceiling, x, m);
    }
    assert Held(s', u) == Held(s, u);
  }

  /**
    Whatever an actor does who stands at most at a role, that role stays, nobody
    beneath it comes to hold it or anything above it, and the actor still
    stands at most there.
   */
  lemma StepKeepsStanding(s: State, actor: int, a: Action, m: int, u: int)
    requires Valid(s) && s.owner != Some(actor) && Allowed(s, actor, a)
    requires m in s.roles && StandsAtMost(s, actor, m)
    ensures var s' := Next(s, actor, a);
      && Valid(s') && s'.owner == s.owner && m in s'.roles
      && (StandsBelow(s, u, m) ==> StandsBelow(s', u, m))
      && (StandsAtMost(s, u, m) ==> StandsAtMost(s', u, m))
  {
    assert s.roles[m].position >= 0;
    AtMostRank(s, actor, m);
    hide Valid, SameFrom, Allowed, StandsBelow, StandsAtMost, Rank;
    if a.Reorder? {
      ReorderStands(s, actor, a, m, u);
      ReorderValid(s, actor, a);
    } else {
      StepSame(s, actor, a);
      assert Next(s, actor, a).owner == s.owner;
      hide Next;
      SameFromKeepsBelow(s, Next(s, actor, a), Rank(s, actor), m, u);
    }
  }

  ghost predicate AllAtMost(s: State, coalition: set<int>, m: int) {
    && Valid(s) && m in s.roles
    && forall v :: v in coalition ==> s.owner != Some(v) && StandsAtMost(s, v, m)
  }

  ghost predicate AllRankAtMost(s: State, coalition: set<int>, top: int) {
    && Valid(s)
    && forall v :: v in coalition ==> s.owner != Some(v) && Rank(s, v) <= top
  }

  lemma CoalitionStepStands(s: State, coalition: set<int>, actor: int, a: Action, m: int, u: int)
    requires AllAtMost(s, coalition, m) && actor in coalition && Allowed(s, actor, a)
    ensures AllAtMost(Next(s, actor, a), coalition, m)
    ensures StandsBelow(s, u, m) ==> StandsBelow(Next(s, actor, a), u, m)
  {
    assert StandsAtMost(s, actor, m) && s.owner != Some(actor);
    hide Valid, StandsBelow, StandsAtMost, Allowed, Next;
    StepKeepsStanding(s, actor, a, m, u);
    forall v | v in coalition
      ensures StandsAtMost(Next(s, actor, a), v, m)
    {
      StepKeepsStanding(s, actor, a, m, v);
    }
  }

  lemma CoalitionStepRanks(s: State, coalition: set<int>, actor: int, a: Action, top: int, u: int)
    requires AllRankAtMost(s, coalition, top) && actor in coalition && Allowed(s, actor, a) && !a.Reorder?
    ensures AllRankAtMost(Next(s, actor, a), coalition, top)
    ensures Rank(s, u) >= top ==> Rank(Next(s, actor, a), u) == Rank(s, u)
    ensures Rank(s, u) < top ==> Rank(Next(s, actor, a), u) < top
  {
    StepSame(s, actor, a);
    assert Next(s, actor, a).owner == s.owner;
    hide Valid, Rank, Allowed, Next, SameFrom;
    forall v | v in coalition
      ensures Rank(Next(s, actor, a), v) <= top
    {
      NobodyIsLifted(s, actor, a, v);
    }
    NobodyIsLifted(s, actor, a, u);
  }

  ghost predicate StepAt(
      coalition: set<int>, states: seq<State>, actors: seq<int>, actions: seq<Action>, k: nat)
    requires k < |actions| == |actors| == |states| - 1
  {
    && actors[k] in coalition && Allowed(states[k], actors[k], actions[k])
    && states[k + 1] == Next(states[k], actors[k], actions[k])
  }

  /** A run of operations by the members of a coalition. */
  ghost predicate IsRun(coalition: set<int>, states: seq<State>, actors: seq<int>, actions: seq<Action>) {
    && |states| == |actions| + 1 && |actors| == |actions|
    && forall k: nat :: k < |actions| ==> StepAt(coalition, states, actors, actions, k)
  }

  /**
    No coalition of people other than the owner lifts anybody to its own top:
    when a role stands at or above all that the members hold, then over any run
    of the six operations it stays, the members stand at most there, and whoever
    stood below it stands below it.
   */
  lemma {:induction false} NoCoalitionLifts(
      coalition: set<int>, states: seq<State>, actors: seq<int>, actions: seq<Action>, m: int, u: int, k: nat)
    requires IsRun(coalition, states, actors, actions) && k < |states|
    requires AllAtMost(states[0], coalition, m)
    ensures AllAtMost(states[k], coalition, m)
    ensures StandsBelow(states[0], u, m) ==> StandsBelow(states[k], u, m)
  {
    if k > 0 {
      NoCoalitionLifts(coalition, states, actors, actions, m, u, k - 1);
      assert StepAt(coalition, states, actors, actions, k - 1);
      assert m in states[0].roles && m in states[k - 1].roles;
      hide IsRun, AllAtMost, StandsBelow, Allowed, Next;
      CoalitionStepStands(states[k - 1], coalition, actors[k - 1], actions[k - 1], m, u);
    }
  }

  /**
    Without reorders the same holds of ranks alone: whoever ranks at or above
    every member keeps their exact rank, and whoever ranks below stays below.
   */
  lemma {:induction false} NoCoalitionOutranks(
      coalition: set<int>, states: seq<State>, actors: seq<int>, actions: seq<Action>, top: int, u: int, k: nat)
    requires IsRun(coalition, states, actors, actions) && k < |states|
    requires AllRankAtMost(states[0], coalition, top)
    requires forall i :: 0 <= i < |actions| ==> !actions[i].Reorder?
    ensures AllRankAtMost(states[k], coalition, top)
    ensures Rank(states[0], u) >= top ==> Rank(states[k], u) == Rank(states[0], u)
    ensures Rank(states[0], u) < top ==> Rank(states[k], u) < top
  {
    hide AllRankAtMost, Rank, Allowed, Next;
    if k > 0 {
      NoCoalitionOutranks(coalition, states, actors, actions, top, u, k - 1);
      assert StepAt(coalition, states, actors, actions, k - 1) && !actions[k - 1].Reorder?;
      var s, s' := states[k - 1], states[k];
      assert s' == Next(s, actors[k - 1], actions[k - 1]);
      hide IsRun, StepAt;
      CoalitionStepRanks(s, coalition, actors[k - 1], actions[k - 1], top, u);
    }
  }
}
