/**
  The role handlers over the cached tables they read and the rows they write.
  Each has a part that looks and decides, accepting exactly what the Roles module
  allows, and a part that writes what was decided into whatever is there by then;
  one after the other they do the step of that module. Refused, a handler changes
  nothing.
 */
module RoleHandlers {
  import opened Wrappers
  import opened Collections
  import opened Roles
  import RoleRaces

  ghost predicate Sorted(roles: map<int, Role>, s: seq<int>) {
    && (forall i :: 0 <= i < |s| ==> s[i] in roles)
    && (forall i, j :: 0 <= i < j < |s| ==> Beneath(roles, s[i], s[j]))
  }

  predicate Under(roles: map<int, Role>, x: int, rank: int) {
    x in roles && roles[x].position < rank
  }

  /** A role put behind all that lie beneath it. */
  lemma Inserted(roles: map<int, Role>, s: seq<int>, at: nat, x: int)
    requires Sorted(roles, s) && x in roles && x !in s && at <= |s|
    requires forall i :: 0 <= i < at ==> Beneath(roles, s[i], x)
    requires at < |s| ==> !Beneath(roles, s[at], x)
    ensures Sorted(roles, s[..at] + [x] + s[at..])
  {
    var t := s[..at] + [x] + s[at..];
    assert forall i :: 0 <= i < |t| ==> t[i] == if i < at then s[i] else if i == at then x else s[i - 1];
    assert forall i :: at <= i < |s| ==> Beneath(roles, x, s[i]);
  }

  class RoleStore {
    var roles: map<int, Role>
    var grants: map<int, set<int>>
    var registered: set<int>
    var everyone: int
    var registeredRole: int
    var owner: Option<int>

    function View(): State
      reads this
    {
      State(roles, grants, registered, everyone, registeredRole, owner)
    }

    // --- who holds what -----------------------------------------------------

    method EffectiveRoleIDs(u: int) returns (ids: set<int>)
      ensures ids == Held(View(), u)
    {
      ids := {everyone};
      if u in registered {
        ids := ids + {registeredRole};
      }
      if u in grants {
        ids := ids + grants[u];
      }
      ids := set x | x in ids && x in roles;
      SameSet(ids, Held(View(), u));
    }

    method HighestRolePosition(ids: set<int>) returns (highest: int)
      requires ids <= roles.Keys
      ensures highest == Highest(roles, ids)
    {
      highest := 0;
      var left := ids;
      while left != {}
        invariant left <= ids && highest >= 0
        invariant forall x :: x in ids && x !in left ==> roles[x].position <= highest
        invariant highest == 0 || exists x :: x in ids && roles[x].position == highest
        decreases |left|
      {
        var x := Pick(left);
        if roles[x].position > highest {
          highest := roles[x].position;
        }
        left := left - {x};
      }
    }

    method RankOf(u: int) returns (rank: int)
      ensures rank == Rank(View(), u)
    {
      if owner == Some(u) {
        return OWNER_RANK;
      }
      var ids := EffectiveRoleIDs(u);
      rank := HighestRolePosition(ids);
    }

    method BasePermissions(ids: set<int>) returns (mask: set<nat>)
      requires ids <= roles.Keys
      ensures forall bit :: bit in mask <==> exists x :: x in ids && bit in roles[x].perms
    {
      mask := {};
      var left := ids;
      while left != {}
        invariant left <= ids
        invariant forall bit :: bit in mask <==> exists x :: x in ids && x !in left && bit in roles[x].perms
        decreases |left|
      {
        var x := Pick(left);
        mask := mask + roles[x].perms;
        left := left - {x};
      }
    }

    method Has(u: int, want: set<nat>) returns (yes: bool)
      ensures yes == Roles.Has(View(), u, want)
    {
      if owner == Some(u) {
        return true;
      }
      var ids := EffectiveRoleIDs(u);
      var mask := BasePermissions(ids);
      if ADMINISTRATOR in mask {
        return true;
      }
      return want <= mask;
    }

    method OutranksUser(actor: int, user: int) returns (yes: bool)
      ensures yes == Outranks(View(), actor, user)
    {
      if actor == user {
        return true;
      }
      var mine := RankOf(actor);
      var theirs := RankOf(user);
      return theirs < mine;
    }

    // --- the stack ----------------------------------------------------------

    method SortedRoles() returns (out: seq<int>)
      ensures Sorted(roles, out) && forall x :: x in out <==> x in roles
    {
      out := [];
      var left := roles.Keys;
      while left != {}
        invariant left <= roles.Keys && Sorted(roles, out)
        invariant forall x :: x in out <==> x in roles && x !in left
        decreases |left|
      {
        var x := Pick(left);
        var at := 0;
        while at < |out| && Beneath(roles, out[at], x)
          invariant at <= |out| && forall i :: 0 <= i < at ==> Beneath(roles, out[i], x)
        {
          at := at + 1;
        }
        Inserted(roles, out, at, x);
        assert forall y :: y in out[..at] + [x] + out[at..] <==> y in out || y == x by {
          assert out == out[..at] + out[at..];
        }
        out := out[..at] + [x] + out[at..];
        left := left - {x};
      }
    }

    method NextRolePosition() returns (next: int)
      ensures NextPosition(View(), next)
    {
      var highest := 0;
      var left := roles.Keys;
      while left != {}
        invariant left <= roles.Keys && highest >= 0
        invariant forall x :: x in roles && x !in left && !roles[x].managed.Admin? ==> roles[x].position <= highest
        invariant highest == 0 || exists x :: x in roles && !roles[x].managed.Admin? && roles[x].position == highest
        decreases |left|
      {
        var x := Pick(left);
        if !roles[x].managed.Admin? && roles[x].position > highest {
          highest := roles[x].position;
        }
        left := left - {x};
      }
      next := highest + 1;
    }

    method TopRolePosition() returns (top: int)
      requires exists x :: x in roles && roles[x].position >= 0
      ensures forall position :: position >= 1 ==> (position <= top <==> WithinStack(View(), position))
    {
      top := HighestRolePosition(roles.Keys);
    }

    // --- handlers -----------------------------------------------------------

    /** The guards of a creation, and the row it will insert. */
    method CheckRoleCreate(actor: int, perms: set<nat>, ghost id: int) returns (ok: bool, row: Role, ghost next: int)
      requires id !in roles
      ensures NextPosition(View(), next) && (ok <==> Allowed(View(), actor, Create(id, perms, next)))
      ensures ok ==> RoleRaces.Decided(View(), actor, Create(id, perms, next)) == RoleRaces.Insert(row)
    {
      var position := NextRolePosition();
      next := position;
      row := Role(position, Unmanaged, perms);
      var may := Has(actor, {MANAGE_ROLES});
      if !may {
        return false, row, next;
      }
      var covers := Has(actor, perms);
      if !covers {
        return false, row, next;
      }
      var ceiling := RankOf(actor);
      if position >= ceiling {
        position := ceiling - 1;
      }
      return position >= 1, row.(position := position), next;
    }

    method InsertRole(id: int, row: Role)
      modifies this`roles
      ensures View() == RoleRaces.Written(old(View()), id, RoleRaces.Insert(row))
    {
      roles := roles[id := row];
    }

    method HandleRoleCreate(actor: int, id: int, perms: set<nat>) returns (ok: bool, ghost next: int)
      requires id !in roles
      modifies this`roles
      ensures NextPosition(old(View()), next) && (ok <==> Allowed(old(View()), actor, Create(id, perms, next)))
      ensures View() == if ok then Next(old(View()), actor, Create(id, perms, next)) else old(View())
    {
      var row;
      ok, row, next := CheckRoleCreate(actor, perms, id);
      hide Allowed, NextPosition, RoleRaces.Written, RoleRaces.Decided;
      if ok {
        RoleRaces.InOneGo(View(), actor, Create(id, perms, next));
        InsertRole(id, row);
      }
    }

    /** The guards of an edit, and the whole row it will write. */
    method CheckRoleUpdate(actor: int, id: int, rename: bool, newPerms: Option<set<nat>>, position: Option<int>)
      returns (ok: bool, row: Role)
      requires Valid(View())
      ensures ok <==> Allowed(View(), actor, Update(id, rename, newPerms, position))
      ensures ok ==>
        RoleRaces.Decided(View(), actor, Update(id, rename, newPerms, position)) == RoleRaces.Put(id, row)
    {
      row := Role(0, Unmanaged, {});
      var may := Has(actor, {MANAGE_ROLES});
      if !may || id !in roles {
        return false, row;
      }
      var ceiling := RankOf(actor);
      row := roles[id];
      if row.position >= ceiling {
        return false, row;
      }
      if rename && row.managed == Everyone {
        return false, row;
      }
      if newPerms.Some? {
        var covers := Has(actor, Flipped(row.perms, newPerms.value));
        if !covers {
          return false, row;
        }
        row := row.(perms := newPerms.value);
      }
      if position.Some? {
        if row.managed == Everyone || position.value < 1 {
          return false, row;
        }
        var top := TopRolePosition();
        assert position.value <= top <==> WithinStack(View(), position.value);
        if position.value > top || position.value >= ceiling {
          return false, row;
        }
        row := row.(position := position.value);
      }
      ok := true;
    }

    /** Writes a row over whatever the role has become; a role that is gone stays gone. */
    method UpdateRole(id: int, row: Role) returns (found: bool)
      modifies this`roles
      ensures found <==> id in old(roles)
      ensures View() == RoleRaces.Written(old(View()), 0, RoleRaces.Put(id, row))
    {
      if id !in roles {
        return false;
      }
      roles := roles[id := row.(managed := roles[id].managed)];
      return true;
    }

    method HandleRoleUpdate(actor: int, id: int, rename: bool, newPerms: Option<set<nat>>, position: Option<int>)
      returns (ok: bool)
      requires Valid(View())
      modifies this`roles
      ensures ok <==> Allowed(old(View()), actor, Update(id, rename, newPerms, position))
      ensures View() == if ok then Next(old(View()), actor, Update(id, rename, newPerms, position)) else old(View())
    {
      var row;
      ok, row := CheckRoleUpdate(actor, id, rename, newPerms, position);
      hide Allowed, RoleRaces.Written, RoleRaces.Decided, Next;
      if ok {
        RoleRaces.InOneGo(View(), actor, Update(id, rename, newPerms, position));
        var found := UpdateRole(id, row);
      }
    }

    method CheckRoleDelete(actor: int, id: int) returns (ok: bool)
      ensures ok <==> Allowed(View(), actor, Delete(id))
    {
      var may := Has(actor, {MANAGE_ROLES});
      if !may || id !in roles || roles[id].managed != Unmanaged {
        return false;
      }
      var ceiling := RankOf(actor);
      return roles[id].position < ceiling;
    }

    /** The role goes and every grant of it. */
    method DeleteRole(id: int) returns (found: bool)
      modifies this`roles, this`grants
      ensures found <==> id in old(roles) && old(roles)[id].managed.Unmanaged?
      ensures View() == RoleRaces.Written(old(View()), 0, RoleRaces.Remove(id))
    {
      if id !in roles || roles[id].managed != Unmanaged {
        return false;
      }
      roles := roles - {id};
      grants := map u | u in grants :: grants[u] - {id};
      return true;
    }

    method HandleRoleDelete(actor: int, id: int) returns (ok: bool)
      modifies this`roles, this`grants
      ensures ok <==> Allowed(old(View()), actor, Delete(id))
      ensures View() == if ok then Next(old(View()), actor, Delete(id)) else old(View())
    {
      ok := CheckRoleDelete(actor, id);
      if ok {
        RoleRaces.InOneGo(View(), actor, Delete(id));
        hide Allowed, RoleRaces.Written, Next;
        var found := DeleteRole(id);
      }
    }

    method CheckRoleMembership(actor: int, user: int, id: int) returns (ok: bool)
      ensures ok <==> Allowed(View(), actor, Assign(user, id))
      ensures ok <==> Allowed(View(), actor, Unassign(user, id))
    {
      var may := Has(actor, {MANAGE_ROLES});
      if !may || id !in roles || roles[id].AutoAssigned() {
        return false;
      }
      var ceiling := RankOf(actor);
      if roles[id].position >= ceiling {
        return false;
      }
      ok := OutranksUser(actor, user);
    }

    /** A grant of a role that is gone fails. */
    method AssignRole(user: int, id: int) returns (found: bool)
      modifies this`grants
      ensures found <==> id in roles
      ensures View() == RoleRaces.Written(old(View()), 0, RoleRaces.Grant(user, id))
    {
      if id !in roles {
        return false;
      }
      grants := grants[user := (if user in grants then grants[user] else {}) + {id}];
      return true;
    }

    method UnassignRole(user: int, id: int)
      modifies this`grants
      ensures View() == RoleRaces.Written(old(View()), 0, RoleRaces.Revoke(user, id))
    {
      grants := grants[user := (if user in grants then grants[user] else {}) - {id}];
    }

    method ChangeRoleMembership(actor: int, user: int, id: int, grant: bool) returns (ok: bool)
      modifies this`grants
      ensures var a := if grant then Assign(user, id) else Unassign(user, id);
        && (ok <==> Allowed(old(View()), actor, a))
        && View() == if ok then Next(old(View()), actor, a) else old(View())
    {
      ok := CheckRoleMembership(actor, user, id);
      if ok {
        RoleRaces.InOneGo(View(), actor, if grant then Assign(user, id) else Unassign(user, id));
        hide Allowed, RoleRaces.Written, Next;
        if grant {
          var found := AssignRole(user, id);
        } else {
          UnassignRole(user, id);
        }
      }
    }

    /** Everything but the everyone role, bottom up. */
    method CurrentStack() returns (current: seq<int>)
      ensures IsStack(View(), current)
    {
      var all := SortedRoles();
      current := [];
      for i := 0 to |all|
        invariant Sorted(roles, current)
        invariant forall x :: x in current <==> x in all[..i] && !roles[x].managed.Everyone?
      {
        assert all[..i + 1] == all[..i] + [all[i]];
        if roles[all[i]].managed != Everyone {
          assert forall j :: 0 <= j < |current| ==> current[j] in current;
          current := current + [all[i]];
        }
      }
      assert all[..|all|] == all;
    }

    /** Where the caller's authority stops: one past the last role beneath their rank. */
    method CeilingOf(actor: int, current: seq<int>) returns (ceiling: nat)
      requires IsStack(View(), current)
      ensures IsCeiling(View(), actor, current, ceiling)
    {
      if owner == Some(actor) {
        return |current|;
      }
      var rank := RankOf(actor);
      ceiling := 0;
      for i := 0 to |current|
        invariant ceiling <= i
        invariant forall j :: 0 <= j < i ==> Under(roles, current[j], rank) == (j < ceiling)
      {
        assert current[i] in current;
        if roles[current[i]].position < rank {
          assert forall j :: 0 <= j < i ==> Beneath(roles, current[j], current[i]);
          ceiling := i + 1;
        }
      }
      forall x | x in current
        ensures Index(current, x) < ceiling <==> roles[x].position < rank
      {
        assert Under(roles, current[Index(current, x)], rank) == (Index(current, x) < ceiling);
      }
    }

    method IndexOfEach(order: seq<int>) returns (at: map<int, nat>)
      requires Distinct(order)
      ensures forall x :: x in at <==> x in order
      ensures forall x :: x in at ==> at[x] == Index(order, x)
    {
      at := map[];
      for i := 0 to |order|
        invariant forall x :: x in at <==> x in order[..i]
        invariant forall x :: x in at ==> at[x] == Index(order, x)
      {
        assert order[..i + 1] == order[..i] + [order[i]];
        IndexOfElement(order, i);
        at := at[order[i] := i];
      }
      assert order[..|order|] == order;
    }

    /** Whether the request names each role of the stack once. */
    method NamesAll(current: seq<int>, wasAt: map<int, nat>, order: seq<int>) returns (yes: bool)
      requires forall x :: x in wasAt <==> x in current
      ensures yes <==> NamesEachOnce(current, order)
    {
      if |order| != |current| {
        return false;
      }
      var nowAt := map[];
      for i := 0 to |order|
        invariant forall j :: 0 <= j < i ==> order[j] in current
        invariant forall j, k :: 0 <= j < k < i ==> order[j] != order[k]
        invariant forall x :: x in nowAt <==> x in order[..i]
      {
        assert order[..i + 1] == order[..i] + [order[i]];
        var id := order[i];
        if id !in wasAt {
          assert order[i] !in current;
          return false;
        }
        if id in nowAt {
          assert id in order[..i];
          ghost var j := Index(order[..i], id);
          assert order[j] == order[i];
          return false;
        }
        assert forall j :: 0 <= j < i ==> order[..i][j] == order[j];
        nowAt := nowAt[id := i];
      }
      return true;
    }

    /** Whether every role that moves stays beneath the ceiling, coming and going. */
    method MovesAllowed(current: seq<int>, wasAt: map<int, nat>, order: seq<int>, ceiling: nat) returns (yes: bool)
      requires forall x :: x in order ==> x in wasAt && wasAt[x] == Index(current, x)
      ensures yes <==> MovesBelow(current, order, ceiling)
    {
      for to := 0 to |order|
        invariant forall j :: 0 <= j < to ==> MayMove(current, order, ceiling, j)
      {
        var id := order[to];
        assert id in order;
        var from := wasAt[id];
        if from != to && (from >= ceiling || to >= ceiling) {
          assert !MayMove(current, order, ceiling, to);
          return false;
        }
      }
      return true;
    }

    /** Writes positions 1 upwards in the order given, all of them or, if a role of the order is gone, none. */
    method ReorderRoles(order: seq<int>) returns (found: bool)
      requires Distinct(order)
      modifies this`roles
      ensures found <==> forall x :: x in order ==> x in old(roles)
      ensures View() == RoleRaces.Written(old(View()), 0, RoleRaces.Restack(order))
    {
      var rows := roles;
      for i := 0 to |order|
        invariant roles == old(roles) && forall x :: x in order[..i] ==> x in roles
        invariant forall x :: x in rows <==> x in roles
        invariant forall x :: x in roles ==>
          rows[x] == if x in order[..i] then roles[x].(position := Index(order, x) + 1) else roles[x]
      {
        assert order[..i + 1] == order[..i] + [order[i]];
        IndexOfElement(order, i);
        var id := order[i];
        if id !in roles {
          assert id in order;
          return false;
        }
        rows := rows[id := rows[id].(position := i + 1)];
      }
      assert order[..|order|] == order;
      RowsAreRenumbered(roles, rows, order);
      roles := rows;
      return true;
    }

    /** Whether the caller may restack the roles so. */
    method MayReorder(actor: int, current: seq<int>, ceiling: nat, order: seq<int>) returns (ok: bool)
      requires |order| < OWNER_RANK && IsStack(View(), current) && IsCeiling(View(), actor, current, ceiling)
      ensures ok <==> Allowed(View(), actor, Reorder(current, order, ceiling))
    {
      StackDistinct(View(), current);
      hide Roles.Has, Rank, IsStack, IsCeiling, NamesEachOnce, MovesBelow;
      assert |order| == |current| || !NamesEachOnce(current, order) by { NamedAreThere(current, order); }
      var may := Has(actor, {MANAGE_ROLES});
      if !may {
        return false;
      }
      var wasAt := IndexOfEach(current);
      var named := NamesAll(current, wasAt, order);
      if !named {
        return false;
      }
      NamedAreThere(current, order);
      ok := MovesAllowed(current, wasAt, order, ceiling);
    }

    method CheckRoleReorder(actor: int, order: seq<int>) returns (ok: bool, ghost stack: seq<int>, ghost ceiling: nat)
      requires |order| < OWNER_RANK
      ensures IsStack(View(), stack) && IsCeiling(View(), actor, stack, ceiling)
      ensures ok <==> Allowed(View(), actor, Reorder(stack, order, ceiling))
    {
      var current := CurrentStack();
      var limit := CeilingOf(actor, current);
      stack, ceiling := current, limit;
      ok := MayReorder(actor, current, limit, order);
    }

    method HandleRoleReorder(actor: int, order: seq<int>) returns (ok: bool, ghost stack: seq<int>, ghost ceiling: nat)
      requires |order| < OWNER_RANK
      modifies this`roles
      ensures IsStack(old(View()), stack) && IsCeiling(old(View()), actor, stack, ceiling)
      ensures ok <==> Allowed(old(View()), actor, Reorder(stack, order, ceiling))
      ensures View() == if ok then Next(old(View()), actor, Reorder(stack, order, ceiling)) else old(View())
    {
      ok, stack, ceiling := CheckRoleReorder(actor, order);
      if ok {
        NamedAreThere(stack, order);
        RoleRaces.InOneGo(View(), actor, Reorder(stack, order, ceiling));
        hide Allowed, IsStack, IsCeiling, NamesEachOnce, MovesBelow, RoleRaces.Written, Next;
        var found := ReorderRoles(order);
      }
    }
  }

  lemma RowsAreRenumbered(roles: map<int, Role>, rows: map<int, Role>, order: seq<int>)
    requires forall x :: x in rows <==> x in roles
    requires forall x :: x in roles ==>
      rows[x] == if x in order then roles[x].(position := Index(order, x) + 1) else roles[x]
    ensures rows == Renumbered(roles, order)
  {
    var after := Renumbered(roles, order);
    forall x
      ensures x in rows <==> x in after
      ensures x in rows ==> rows[x] == after[x]
    {
      assert x in rows <==> x in roles;
    }
    SameMap(rows, after);
  }

  lemma NamedAreThere(stack: seq<int>, order: seq<int>)
    ensures NamesEachOnce(stack, order) ==> |order| == |stack| && Distinct(order)
    ensures NamesEachOnce(stack, order) ==> forall x :: x in order ==> x in stack
  {}
}
