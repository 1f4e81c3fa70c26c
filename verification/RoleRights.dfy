/** What each role operation demands and does, told from roles held, and where permission bits can come from. */
module RoleRights {
  import opened Wrappers
  import opened Collections
  import opened Roles
  import RoleRaces

  // --- what somebody holds --------------------------------------------------

  predicate HoldsRole(s: State, u: int, x: int) {
    x in s.roles &&
    ((u in s.grants && x in s.grants[u]) || x == s.everyone || (u in s.registered && x == s.registeredRole))
  }

  /** A bit of one of the roles held. */
  ghost predicate Holds(s: State, u: int, bit: nat) {
    exists x :: HoldsRole(s, u, x) && bit in s.roles[x].perms
  }

  /** The owner, or an administrator. */
  ghost predicate Unbound(s: State, u: int) {
    s.owner == Some(u) || Holds(s, u, 31)
  }

  ghost predicate MayFlip(s: State, u: int, bit: nat) {
    Unbound(s, u) || Holds(s, u, bit)
  }

  /** Somebody reaches beneath the greatest position they hold, the owner anywhere. */
  ghost predicate Reaches(s: State, u: int, position: int) {
    if s.owner == Some(u) then position < 0x7FFF_FFFF_FFFF_FFFF
    else exists x :: HoldsRole(s, u, x) && position < s.roles[x].position
  }

  lemma HeldRoles(s: State, u: int, x: int)
    ensures x in Held(s, u) <==> HoldsRole(s, u, x)
  {}

  lemma HasMeans(s: State, u: int, want: set<nat>)
    ensures Has(s, u, want) <==> forall bit :: bit in want ==> MayFlip(s, u, bit)
  {
    forall x { HeldRoles(s, u, x); }
    hide Held, HoldsRole;
  }

  lemma RankMeans(s: State, u: int, position: int)
    requires position >= 0
    ensures position < Rank(s, u) <==> Reaches(s, u, position)
  {
    forall x { HeldRoles(s, u, x); }
    hide HoldsRole;
  }

  // --- what each operation demands ------------------------------------------

  /** Everybody may look after roles who holds that bit. */
  ghost predicate MayManageRoles(s: State, u: int) {
    MayFlip(s, u, 9)
  }

  lemma ManageMeans(s: State, u: int)
    ensures MayManage(s, u) <==> MayManageRoles(s, u)
  {
    HasMeans(s, u, {MANAGE_ROLES});
    hide Has, MayFlip;
  }

  /** A role somebody may touch: there, and beneath them. */
  ghost predicate Touches(s: State, actor: int, id: int) {
    id in s.roles && Reaches(s, actor, s.roles[id].position)
  }

  lemma ReachMeans(s: State, actor: int, id: int)
    requires Valid(s)
    ensures Reach(s, actor, id) <==> Touches(s, actor, id)
  {
    if id in s.roles { RankMeans(s, actor, s.roles[id].position); }
    hide Rank, Reaches;
  }

  /**
    An update passes exactly when its author may look after roles and touches the
    role, holds every bit in which the masks differ, and moves it, if at all, to
    a place in the stack beneath themselves; everyone's role is neither renamed
    nor moved.
   */
  lemma UpdateAcceptedExactly(
      s: State, actor: int, id: int, rename: bool, newPerms: Option<set<nat>>, position: Option<int>)
    requires Valid(s)
    ensures Allowed(s, actor, Update(id, rename, newPerms, position)) <==>
      (&& MayManageRoles(s, actor) && Touches(s, actor, id)
       && (rename || position.Some? ==> s.roles[id].managed != Everyone)
       && (newPerms.Some? ==> forall bit: nat ::
             (bit in s.roles[id].perms) != (bit in newPerms.value) ==> MayFlip(s, actor, bit))
       && (position.Some? ==>
             && 1 <= position.value && Reaches(s, actor, position.value)
             && exists x :: x in s.roles && position.value <= s.roles[x].position))
  {
    ManageMeans(s, actor);
    ReachMeans(s, actor, id);
    if id in s.roles && newPerms.Some? {
      HasMeans(s, actor, Flipped(s.roles[id].perms, newPerms.value));
    }
    if position.Some? && position.value >= 1 { RankMeans(s, actor, position.value); }
    hide Has, MayManage, MayManageRoles, MayFlip, Reach, Touches, Rank, Reaches, Valid;
  }

  /** And then writes just what was asked: the mask and the place given, each as it was if none is. */
  lemma UpdateWrites(
      s: State, actor: int, id: int, rename: bool, newPerms: Option<set<nat>>, position: Option<int>)
    requires Allowed(s, actor, Update(id, rename, newPerms, position))
    ensures var s' := Next(s, actor, Update(id, rename, newPerms, position));
      && (forall x :: x in s'.roles <==> x in s.roles)
      && (forall x :: x in s.roles && x != id ==> s'.roles[x] == s.roles[x])
      && s'.roles[id].perms == (if newPerms.Some? then newPerms.value else s.roles[id].perms)
      && s'.roles[id].position == (if position.Some? then position.value else s.roles[id].position)
      && s'.roles[id].managed == s.roles[id].managed
      && s'.grants == s.grants && s'.registered == s.registered && s'.owner == s.owner
  {
    hide MayManage, Has, WithinStack, Rank;
  }

  /**
    Where a new role lands: beneath its author, and if they reach further then
    above every role that is not an admin one, and just above one of those or at
    the bottom; never higher than that.
   */
  ghost predicate LandsAt(s: State, actor: int, position: int) {
    && 1 <= position && Reaches(s, actor, position)
    && (Reaches(s, actor, position + 1) ==>
          forall x :: x in s.roles && s.roles[x].managed != Admin ==> s.roles[x].position < position)
    && (position == 1 || exists x :: x in s.roles && s.roles[x].managed != Admin && s.roles[x].position >= position - 1)
  }

  ghost function Ordinary(s: State): set<int> {
    set x | x in s.roles && s.roles[x].managed != Admin
  }

  /** There is always a next position. */
  lemma SomeNextPosition(s: State) returns (next: int)
    requires Valid(s)
    ensures NextPosition(s, next)
  {
    next := Highest(s.roles, Ordinary(s)) + 1;
    assert forall x :: x in s.roles && !s.roles[x].managed.Admin? ==> x in Ordinary(s);
  }

  /** Creating demands every bit of the mask, and room beneath the author. */
  lemma CreateAcceptedExactly(s: State, actor: int, id: int, perms: set<nat>, next: int)
    requires Valid(s) && NextPosition(s, next) && next < 0x7FFF_FFFF_FFFF_FFFF
    ensures Allowed(s, actor, Create(id, perms, next)) <==>
      (&& MayManageRoles(s, actor) && id !in s.roles
       && (forall bit :: bit in perms ==> MayFlip(s, actor, bit)) && Reaches(s, actor, 1))
  {
    ManageMeans(s, actor);
    HasMeans(s, actor, perms);
    RankMeans(s, actor, 1);
    hide Has, MayManage, MayManageRoles, MayFlip, Rank, Reaches, Valid;
  }

  lemma CreateWrites(s: State, actor: int, id: int, perms: set<nat>, next: int)
    requires Valid(s) && Allowed(s, actor, Create(id, perms, next)) && next < 0x7FFF_FFFF_FFFF_FFFF
    ensures var s' := Next(s, actor, Create(id, perms, next));
      && id in s'.roles && s'.roles[id].perms == perms && s'.roles[id].managed == Unmanaged
      && LandsAt(s, actor, s'.roles[id].position)
      && (forall x :: x != id ==> (x in s'.roles <==> x in s.roles) && (x in s.roles ==> s'.roles[x] == s.roles[x]))
      && s'.grants == s.grants && s'.registered == s.registered && s'.owner == s.owner
  {
    var position := NewPosition(next, Rank(s, actor));
    RankMeans(s, actor, position);
    RankMeans(s, actor, position + 1);
    hide Has, MayManage, Rank, Reaches, Valid;
  }

  /** Deleting demands a role of nobody's making but people's. */
  lemma DeleteAcceptedExactly(s: State, actor: int, id: int)
    requires Valid(s)
    ensures Allowed(s, actor, Delete(id)) <==>
      MayManageRoles(s, actor) && Touches(s, actor, id) && s.roles[id].managed == Unmanaged
  {
    ManageMeans(s, actor);
    ReachMeans(s, actor, id);
    hide MayManage, MayManageRoles, Reach, Touches, Valid;
  }

  /** After it nobody holds the role, and everything else is as it was. */
  lemma DeleteWrites(s: State, actor: int, id: int)
    requires Valid(s) && Allowed(s, actor, Delete(id))
    ensures var s' := Next(s, actor, Delete(id));
      && (forall x :: x in s'.roles <==> x in s.roles && x != id)
      && (forall x :: x in s'.roles ==> s'.roles[x] == s.roles[x])
      && (forall u, x :: HoldsRole(s', u, x) <==> HoldsRole(s, u, x) && x != id)
      && (forall u :: u in s'.grants ==> id !in s'.grants[u])
      && s'.registered == s.registered && s'.owner == s.owner
  {
    hide MayManage, Reach;
  }

  /** Somebody stands beneath another: not the owner, and holding nothing out of the other's reach. */
  ghost predicate StandsUnder(s: State, user: int, actor: int) {
    s.owner != Some(user) && forall x :: HoldsRole(s, user, x) ==> Reaches(s, actor, s.roles[x].position)
  }

  lemma OutranksMeans(s: State, actor: int, user: int)
    requires Valid(s)
    ensures Outranks(s, actor, user) <==> actor == user || StandsUnder(s, user, actor)
  {
    if s.owner != Some(user) {
      RankMeans(s, actor, Rank(s, user));
      forall x | HoldsRole(s, user, x)
        ensures s.roles[x].position < Rank(s, actor) <==> Reaches(s, actor, s.roles[x].position)
        ensures s.roles[x].position <= Rank(s, user)
      {
        RankMeans(s, actor, s.roles[x].position);
        HeldRoles(s, user, x);
      }
      RankIsHeld(s, user);
    } else {
      OwnerTops(s, actor);
    }
  }

  lemma OwnerTops(s: State, actor: int)
    requires Valid(s)
    ensures Rank(s, actor) <= OWNER_RANK
  {
    RankBelowOwner(s, actor);
  }

  /** A rank is that of a role held; everybody holds everyone's. */
  lemma RankIsHeld(s: State, u: int)
    requires Valid(s) && s.owner != Some(u)
    ensures exists x :: HoldsRole(s, u, x) && s.roles[x].position == Rank(s, u)
  {
    HeldRoles(s, u, s.everyone);
    assert HoldsRole(s, u, s.everyone);
    var h := Highest(s.roles, Held(s, u));
    if h != 0 {
      var x :| x in Held(s, u) && s.roles[x].position == h;
      HeldRoles(s, u, x);
    }
  }

  /** Granting and revoking demand the same: a role given by hand, within reach, and somebody beneath or oneself. */
  lemma MembershipAcceptedExactly(s: State, actor: int, user: int, id: int)
    requires Valid(s)
    ensures Allowed(s, actor, Assign(user, id)) <==> Allowed(s, actor, Unassign(user, id))
    ensures Allowed(s, actor, Assign(user, id)) <==>
      (&& MayManageRoles(s, actor) && Touches(s, actor, id)
       && s.roles[id].managed != Everyone && s.roles[id].managed != Registered
       && (actor == user || StandsUnder(s, user, actor)))
  {
    ManageMeans(s, actor);
    ReachMeans(s, actor, id);
    OutranksMeans(s, actor, user);
    hide MayManage, MayManageRoles, Reach, Touches, Outranks, StandsUnder, Valid;
  }

  /** And one person comes to hold one role, or no longer does unless they hold it for what they are. */
  lemma MembershipWrites(s: State, actor: int, user: int, id: int, u: int, x: int)
    requires Allowed(s, actor, Assign(user, id))
    ensures HoldsRole(Next(s, actor, Assign(user, id)), u, x) <==>
      HoldsRole(s, u, x) || (u == user && x == id)
    ensures HoldsRole(Next(s, actor, Unassign(user, id)), u, x) <==>
      HoldsRole(s, u, x) &&
      (u != user || x != id || x == s.everyone || (u in s.registered && x == s.registeredRole))
    ensures Next(s, actor, Assign(user, id)).roles == s.roles && Next(s, actor, Unassign(user, id)).roles == s.roles
  {
    hide MayManage, Outranks;
  }

  /** Below the caller's ceiling are the roles within their reach. */
  lemma CeilingMeans(s: State, actor: int, stack: seq<int>, ceiling: nat, i: nat)
    requires Valid(s) && IsStack(s, stack) && IsCeiling(s, actor, stack, ceiling) && i < |stack|
    ensures Index(stack, stack[i]) == i && stack[i] in s.roles
    ensures i < ceiling <==> Reaches(s, actor, s.roles[stack[i]].position)
  {
    StackDistinct(s, stack);
    IndexOfElement(stack, i);
    assert stack[i] in stack;
    RankMeans(s, actor, s.roles[stack[i]].position);
    hide Rank, Index;
  }

  /** A place in the order keeps its role, or both that role and the one it gets are within reach. */
  ghost predicate MovesWithinReach(s: State, actor: int, stack: seq<int>, order: seq<int>, i: nat)
    requires i < |order| == |stack|
  {
    order[i] == stack[i] || (Touches(s, actor, order[i]) && Touches(s, actor, stack[i]))
  }

  lemma MoveMeans(s: State, actor: int, stack: seq<int>, order: seq<int>, ceiling: nat, to: nat)
    requires Valid(s) && IsStack(s, stack) && IsCeiling(s, actor, stack, ceiling)
    requires to < |order| == |stack| && order[to] in stack
    ensures MayMove(stack, order, ceiling, to) <==> MovesWithinReach(s, actor, stack, order, to)
  {
    var from := Index(stack, order[to]);
    CeilingMeans(s, actor, stack, ceiling, from);
    CeilingMeans(s, actor, stack, ceiling, to);
    hide Index, Reaches, IsCeiling, IsStack, Valid;
  }

  /** Every role but everyone's, each once. */
  ghost predicate NamesRoles(s: State, order: seq<int>) {
    Distinct(order) && forall x :: x in order <==> x in s.roles && !s.roles[x].managed.Everyone?
  }

  lemma NamesMeans(s: State, stack: seq<int>, order: seq<int>)
    requires IsStack(s, stack)
    ensures NamesEachOnce(stack, order) <==> |order| == |stack| && NamesRoles(s, order)
  {
    StackDistinct(s, stack);
    if NamesEachOnce(stack, order) {
      forall x
        ensures x in order <==> x in stack
      {
        Rearranged(order, stack, x);
      }
    }
    if NamesRoles(s, order) {
      forall i | 0 <= i < |order|
        ensures order[i] in stack
      {
        var x := order[i];
        assert x in order;
        assert x in s.roles && !s.roles[x].managed.Everyone?;
      }
    }
  }

  /** A reorder names every role once and moves only roles within reach, to places of roles within reach. */
  lemma ReorderAcceptedExactly(s: State, actor: int, stack: seq<int>, order: seq<int>, ceiling: nat)
    requires Valid(s) && IsStack(s, stack) && |stack| < OWNER_RANK && IsCeiling(s, actor, stack, ceiling)
    ensures Allowed(s, actor, Reorder(stack, order, ceiling)) <==>
      (&& MayManageRoles(s, actor) && |order| == |stack| && NamesRoles(s, order)
       && forall i: nat :: i < |order| ==> MovesWithinReach(s, actor, stack, order, i))
  {
    ManageMeans(s, actor);
    NamesMeans(s, stack, order);
    if NamesEachOnce(stack, order) {
      forall i: nat | i < |order|
        ensures MayMove(stack, order, ceiling, i) <==> MovesWithinReach(s, actor, stack, order, i)
      {
        hide IsStack, IsCeiling, Valid, MayMove, MovesWithinReach;
        MoveMeans(s, actor, stack, order, ceiling, i);
      }
    }
    hide MayManage, MayManageRoles, Valid, IsStack, IsCeiling, MayMove, MovesWithinReach, NamesEachOnce, NamesRoles;
  }

  // --- where bits come from -------------------------------------------------

  /** A step puts into a mask, or takes from it, only what whoever took it holds. */
  lemma StepFlipsOwnBits(s: State, actor: int, a: Action, x: int, bit: nat)
    requires Allowed(s, actor, a)
    requires var s' := Next(s, actor, a);
      x in s'.roles && (bit in s'.roles[x].perms) != (x in s.roles && bit in s.roles[x].perms)
    ensures MayFlip(s, actor, bit)
  {
    match a
    case Create(_, perms, _) => HasMeans(s, actor, perms); hide Has, MayFlip, Rank, MayManage;
    case Update(id, _, newPerms, _) =>
      if newPerms.Some? { HasMeans(s, actor, Flipped(s.roles[id].perms, newPerms.value)); }
      hide Has, MayFlip, Rank, MayManage;
    case _ => hide Has, MayFlip, Rank, MayManage;
  }

  ghost predicate InSomeMask(s: State, bit: nat) {
    exists x :: x in s.roles && bit in s.roles[x].perms
  }

  /** In every run, one operation after another, whatever bit appears in a mask or goes was its author's to flip. */
  lemma RunFlipsOwnBits(
      coalition: set<int>, states: seq<State>, actors: seq<int>, actions: seq<Action>, k: nat, x: int, bit: nat)
    requires IsRun(coalition, states, actors, actions) && k < |actions|
    requires x in states[k + 1].roles
    requires (bit in states[k + 1].roles[x].perms) != (x in states[k].roles && bit in states[k].roles[x].perms)
    ensures MayFlip(states[k], actors[k], bit)
  {
    assert StepAt(coalition, states, actors, actions, k);
    hide IsRun, MayFlip, Next, Allowed;
    StepFlipsOwnBits(states[k], actors[k], actions[k], x, bit);
  }

  // --- bits when others come in between -------------------------------------

  /** What is decided flips, against what was read, only what its author holds. */
  lemma DecidedFlipsOwnBits(s: State, actor: int, a: Action, bit: nat)
    requires Allowed(s, actor, a)
    ensures match RoleRaces.Decided(s, actor, a)
      case Insert(row) => bit in row.perms ==> MayFlip(s, actor, bit)
      case Put(id, row) =>
        id in s.roles && ((bit in row.perms) != (bit in s.roles[id].perms) ==> MayFlip(s, actor, bit))
      case _ => true
  {
    match a
    case Create(_, perms, _) => HasMeans(s, actor, perms); hide Has, MayFlip, Rank, MayManage;
    case Update(id, _, newPerms, _) =>
      if newPerms.Some? { HasMeans(s, actor, Flipped(s.roles[id].perms, newPerms.value)); }
      hide Has, MayFlip, Rank, MayManage;
    case _ => hide Has, MayFlip, Rank, MayManage;
  }

  /** A write waiting is overtaken just when a reorder is made and it is a row, or a new role and it is a reorder. */
  lemma OvertakenExactly(b: RoleRaces.Board, i: nat, j: nat)
    requires RoleRaces.Enabled(b, RoleRaces.Make(i)) && j < |b.pending| && j != i
    ensures var b', j' := RoleRaces.After(b, RoleRaces.Make(i)), if j < i then j else j - 1;
      var made, waiting := b.pending[i].write, b.pending[j];
      && j' < |b'.pending| && b'.pending[j'].write == waiting.write
      && (b'.pending[j'].overtaken <==>
            || waiting.overtaken
            || (made.Restack? && (waiting.write.Insert? || waiting.write.Put?))
            || (made.Insert? && waiting.write.Restack?))
  {
    hide RoleRaces.Written;
    assert Without(b.pending, i)[if j < i then j else j - 1] == b.pending[j];
  }

  /** And one decided has not been. */
  lemma DecidedIsNotOvertaken(b: RoleRaces.Board, actor: int, a: Action)
    requires RoleRaces.Enabled(b, RoleRaces.Decide(actor, a))
    ensures var b' := RoleRaces.After(b, RoleRaces.Decide(actor, a));
      && b'.pending[..|b.pending|] == b.pending && |b'.pending| == |b.pending| + 1 && b'.now == b.now
      && !b'.pending[|b.pending|].overtaken
  {
    hide Allowed, RoleRaces.Decided;
  }

  /**
    An update writes back the whole row it read, so when it is written it flips
    only what its author held if and only if its author held every bit in which
    the mask has changed since.
   */
  lemma StaleRowFlips(s: State, now: State, actor: int, a: Action)
    requires Allowed(s, actor, a) && a.Update? && a.id in now.roles
    ensures var written := RoleRaces.Written(now, 0, RoleRaces.Decided(s, actor, a));
      && a.id in written.roles
      && ((forall bit: nat :: (bit in written.roles[a.id].perms) != (bit in now.roles[a.id].perms) ==>
              MayFlip(s, actor, bit))
          <==>
          (forall bit: nat :: (bit in now.roles[a.id].perms) != (bit in s.roles[a.id].perms) ==>
              MayFlip(s, actor, bit)))
  {
    forall bit: nat
      ensures var row := RoleRaces.Decided(s, actor, a).row;
        (bit in row.perms) != (bit in s.roles[a.id].perms) ==> MayFlip(s, actor, bit)
    {
      DecidedFlipsOwnBits(s, actor, a, bit);
    }
    hide Allowed, MayFlip;
  }

  lemma BothPut(b: RoleRaces.Board, id: int, first: Role, second: Role)
    requires b.pending ==
      [RoleRaces.Request(RoleRaces.Put(id, first), false), RoleRaces.Request(RoleRaces.Put(id, second), false)]
    requires id in b.now.roles
    ensures RoleRaces.Enabled(b, RoleRaces.Make(1))
    ensures var b1 := RoleRaces.After(b, RoleRaces.Make(1));
      && id in b1.now.roles && b1.now.roles[id].perms == second.perms && RoleRaces.Enabled(b1, RoleRaces.Make(0))
      && var b2 := RoleRaces.After(b1, RoleRaces.Make(0));
      id in b2.now.roles && b2.now.roles[id].perms == first.perms
  {
    assert Without(b.pending, 1) == [b.pending[0]];
  }

  /**
    One takes a bit from a role, and another's rename of it, read before and
    written after, puts the bit back, whoever may or may not hold it.
   */
  lemma RenameRestoresBits(b: RoleRaces.Board, one: int, other: int, id: int, bit: nat)
    returns (boards: seq<RoleRaces.Board>, steps: seq<RoleRaces.Step>)
    requires RoleRaces.Initial(b) && id in b.now.roles && bit in b.now.roles[id].perms
    requires Allowed(b.now, other, Update(id, true, None, None)) && !MayFlip(b.now, other, bit)
    requires Allowed(b.now, one, Update(id, false, Some(b.now.roles[id].perms - {bit}), None))
    ensures RoleRaces.IsRun({one, other}, boards, steps) && boards[0] == b && |steps| == 4
    ensures steps[2] == RoleRaces.Make(1) && steps[3] == RoleRaces.Make(0)
    ensures id in boards[3].now.roles && bit !in boards[3].now.roles[id].perms
    ensures id in boards[4].now.roles && bit in boards[4].now.roles[id].perms
  {
    var row := b.now.roles[id];
    var rename, edit := Update(id, true, None, None), Update(id, false, Some(row.perms - {bit}), None);
    var put, cut := RoleRaces.Put(id, row), RoleRaces.Put(id, row.(perms := row.perms - {bit}));
    assert RoleRaces.Decided(b.now, other, rename) == put && RoleRaces.Decided(b.now, one, edit) == cut;
    hide Allowed, MayFlip;
    var first, second := RoleRaces.Decide(other, rename), RoleRaces.Decide(one, edit);
    var b1 := RoleRaces.After(b, first);
    var b2 := RoleRaces.After(b1, second);
    assert b2 == b.(pending := [RoleRaces.Request(put, false), RoleRaces.Request(cut, false)]);
    BothPut(b2, id, row, cut.row);
    boards, steps := RoleRaces.FourSteps({one, other}, b, first, second, RoleRaces.Make(1), RoleRaces.Make(0));
  }

  // --- no bit out of nothing ------------------------------------------------

  /** Every bit in a mask, or in one waiting to be written, was in some mask at the start. */
  ghost predicate FromTheStart(start: State, b: RoleRaces.Board) {
    && (forall bit: nat :: InSomeMask(b.now, bit) ==> InSomeMask(start, bit))
    && forall i, bit: nat :: 0 <= i < |b.pending| && Carries(b.pending[i].write, bit) ==> InSomeMask(start, bit)
  }

  predicate Carries(w: RoleRaces.Write, bit: nat) {
    match w
    case Insert(row) => bit in row.perms
    case Put(_, row) => bit in row.perms
    case _ => false
  }

  /** A step by somebody who is neither the owner nor an administrator then. */
  ghost predicate Bound(b: RoleRaces.Board, step: RoleRaces.Step) {
    step.Decide? ==> !Unbound(b.now, step.actor)
  }

  lemma DecidedCarries(s: State, actor: int, a: Action, bit: nat)
    requires Allowed(s, actor, a) && !Unbound(s, actor) && Carries(RoleRaces.Decided(s, actor, a), bit)
    ensures InSomeMask(s, bit)
  {
    DecidedFlipsOwnBits(s, actor, a, bit);
    hide Allowed;
  }

  lemma WrittenFrom(s: State, id: int, w: RoleRaces.Write, bit: nat)
    requires InSomeMask(RoleRaces.Written(s, id, w), bit)
    ensures InSomeMask(s, bit) || Carries(w, bit)
  {
    var s' := RoleRaces.Written(s, id, w);
    var x :| x in s'.roles && bit in s'.roles[x].perms;
    if !Carries(w, bit) {
      assert x in s.roles && bit in s.roles[x].perms by { hide Index; }
    }
  }

  lemma StepFromTheStart(start: State, b: RoleRaces.Board, step: RoleRaces.Step)
    requires FromTheStart(start, b) && RoleRaces.Enabled(b, step) && Bound(b, step)
    ensures FromTheStart(start, RoleRaces.After(b, step))
  {
    var b' := RoleRaces.After(b, step);
    match step
    case Decide(actor, a) =>
      forall i, bit: nat | 0 <= i < |b'.pending| && Carries(b'.pending[i].write, bit)
        ensures InSomeMask(start, bit)
      {
        if i == |b.pending| {
          DecidedCarries(b.now, actor, a, bit);
        } else {
          assert Carries(b.pending[i].write, bit);
        }
      }
    case Make(i) =>
      var w := b.pending[i].write;
      forall bit: nat | InSomeMask(b'.now, bit)
        ensures InSomeMask(start, bit)
      {
        hide InSomeMask, Carries, RoleRaces.Written;
        WrittenFrom(b.now, b.last + 1, w, bit);
      }
      forall j, bit: nat | 0 <= j < |b'.pending| && Carries(b'.pending[j].write, bit)
        ensures InSomeMask(start, bit)
      {
        assert b'.pending[j].write == b.pending[if j < i then j else j + 1].write;
      }
  }

  /**
    Over every run of guards and writes interleaved in which nobody decides who
    is the owner or an administrator then, no mask comes to have a bit that no
    mask had at the start.
   */
  lemma {:induction false} NoBitOutOfNothing(
      coalition: set<int>, boards: seq<RoleRaces.Board>, steps: seq<RoleRaces.Step>, k: nat)
    requires RoleRaces.IsRun(coalition, boards, steps) && RoleRaces.Initial(boards[0]) && k < |boards|
    requires forall j :: 0 <= j < k ==> Bound(boards[j], steps[j])
    ensures FromTheStart(boards[0].now, boards[k])
  {
    if k > 0 {
      NoBitOutOfNothing(coalition, boards, steps, k - 1);
      assert RoleRaces.StepAt(coalition, boards, steps, k - 1);
      hide FromTheStart, Bound, RoleRaces.After, RoleRaces.Enabled, RoleRaces.IsRun, RoleRaces.Initial;
      StepFromTheStart(boards[0].now, boards[k - 1], steps[k - 1]);
    }
  }
}
