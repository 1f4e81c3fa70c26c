/**
  The role operations as the handlers take them: each looks at the hierarchy and
  decides, and writes what it decided some time later, with other handlers
  looking and writing in between.

  A role's id is greater than that of any role before it. What a handler looks at
  it sees as it is at one moment. Roles has the same operations with nothing in
  between.
 */
module RoleRaces {
  import opened Wrappers
  import opened Collections
  import opened Roles

  /** What a handler has decided to write. An update writes the whole row. */
  datatype Write =
    | Insert(row: Role)
    | Put(id: int, row: Role)
    | Remove(id: int)
    | Grant(user: int, id: int)
    | Revoke(user: int, id: int)
    | Restack(order: seq<int>)

  /**
    A write decided and not yet made. It has been overtaken if a reorder was made
    since its guards, or, being a reorder itself, if a role was created since.
   */
  datatype Request = Request(write: Write, overtaken: bool)

  /** The hierarchy, the greatest id a role ever had, and what is decided and not yet written. */
  datatype Board = Board(now: State, last: int, pending: seq<Request>)

  /** What an operation whose guards pass is going to write. */
  ghost function Decided(s: State, actor: int, a: Action): Write
    requires Allowed(s, actor, a)
  {
    match a
    case Create(_, perms, next) => Insert(Role(NewPosition(next, Rank(s, actor)), Unmanaged, perms))
    case Update(id, _, newPerms, position) =>
      var role := s.roles[id];
      var role1 := if newPerms.Some? then role.(perms := newPerms.value) else role;
      Put(id, if position.Some? then role1.(position := position.value) else role1)
    case Delete(id) => Remove(id)
    case Assign(user, id) => Grant(user, id)
    case Unassign(user, id) => Revoke(user, id)
    case Reorder(_, order, _) => Restack(order)
  }

  /** What a write does to whatever hierarchy it finds. A role that is gone meanwhile makes it fail. */
  ghost function Written(s: State, id: int, w: Write): State {
    match w
    case Insert(row) => s.(roles := s.roles[id := row])
    case Put(x, row) =>
      if x in s.roles then s.(roles := s.roles[x := row.(managed := s.roles[x].managed)]) else s
    case Remove(x) =>
      if x in s.roles && s.roles[x].managed.Unmanaged? then
        s.(roles := s.roles - {x}, grants := map u | u in s.grants :: s.grants[u] - {x})
      else s
    case Grant(user, x) => if x in s.roles then Granted(s, user, Explicit(s, user) + {x}) else s
    case Revoke(user, x) => Granted(s, user, Explicit(s, user) - {x})
    case Restack(order) =>
      if forall x :: x in order ==> x in s.roles then s.(roles := Renumbered(s.roles, order)) else s
  }

  /** Deciding and writing at once is the operation in one go. */
  lemma InOneGo(s: State, actor: int, a: Action)
    requires Allowed(s, actor, a)
    ensures Written(s, if a.Create? then a.id else 0, Decided(s, actor, a)) == Next(s, actor, a)
  {
    hide Has, Rank, Renumbered;
    if a.Reorder? {
      NamedInStack(s, a.stack, a.order);
    }
  }

  lemma NamedInStack(s: State, stack: seq<int>, order: seq<int>)
    requires IsStack(s, stack) && NamesEachOnce(stack, order)
    ensures forall x :: x in order ==> x in s.roles
  {
    forall x | x in order
      ensures x in s.roles
    {
      var i :| 0 <= i < |order| && order[i] == x;
      assert order[i] in stack;
    }
  }

  // --- runs -----------------------------------------------------------------

  datatype Step =
    | Decide(actor: int, action: Action)
    | Make(at: nat)

  ghost predicate Enabled(b: Board, step: Step) {
    match step
    case Decide(actor, a) => Allowed(b.now, actor, a)
    case Make(i) => i < |b.pending|
  }

  predicate Overtakes(w: Write, other: Write) {
    (w.Restack? && (other.Insert? || other.Put?)) || (w.Insert? && other.Restack?)
  }

  function Marked(pending: seq<Request>, w: Write): seq<Request> {
    seq(|pending|, i requires 0 <= i < |pending| =>
      pending[i].(overtaken := pending[i].overtaken || Overtakes(w, pending[i].write)))
  }

  ghost function After(b: Board, step: Step): Board
    requires Enabled(b, step)
  {
    match step
    case Decide(actor, a) => b.(pending := b.pending + [Request(Decided(b.now, actor, a), false)])
    case Make(i) =>
      var w := b.pending[i].write;
      Board(Written(b.now, b.last + 1, w), if w.Insert? then b.last + 1 else b.last,
            Marked(Without(b.pending, i), w))
  }

  ghost predicate StepAt(coalition: set<int>, boards: seq<Board>, steps: seq<Step>, k: nat)
    requires k < |steps| == |boards| - 1
  {
    && Enabled(boards[k], steps[k]) && boards[k + 1] == After(boards[k], steps[k])
    && (steps[k].Decide? ==> steps[k].actor in coalition)
  }

  ghost predicate IsRun(coalition: set<int>, boards: seq<Board>, steps: seq<Step>) {
    |boards| == |steps| + 1 && forall k: nat :: k < |steps| ==> StepAt(coalition, boards, steps, k)
  }

  /** Nothing decided yet, and every role's id known. */
  ghost predicate Initial(b: Board) {
    Valid(b.now) && b.pending == [] && forall x :: x in b.now.roles ==> x <= b.last
  }

  // --- the hierarchy from one role up ---------------------------------------

  /** A role at or above another. */
  ghost predicate AtOrAbove(roles: map<int, Role>, x: int, m: int) {
    x in roles && m in roles && (x == m || !Beneath(roles, x, m))
  }

  /** From one role up there are the same roles, and the same people hold them. */
  ghost predicate SameAbove(s: State, s': State, m: int) {
    && s'.owner == s.owner && m in s.roles && m in s'.roles
    && (forall x :: AtOrAbove(s'.roles, x, m) <==> AtOrAbove(s.roles, x, m))
    && (forall u, x :: AtOrAbove(s.roles, x, m) ==> (x in Held(s', u) <==> x in Held(s, u)))
  }

  lemma SameAboveStands(s: State, s': State, m: int, u: int)
    requires SameAbove(s, s', m)
    ensures StandsBelow(s', u, m) <==> StandsBelow(s, u, m)
    ensures StandsAtMost(s', u, m) <==> StandsAtMost(s, u, m)
  {
    OneWayStands(s, s', m, u);
    OneWayStands(s', s, m, u);
  }

  lemma OneWayStands(s: State, s': State, m: int, u: int)
    requires SameAbove(s, s', m) || SameAbove(s', s, m)
    ensures m in s.roles && m in s'.roles
    ensures StandsBelow(s, u, m) ==> StandsBelow(s', u, m)
    ensures StandsAtMost(s, u, m) ==> StandsAtMost(s', u, m)
  {
    forall x | x in Held(s', u) && (x == m || !Beneath(s'.roles, x, m))
      ensures x in Held(s, u) && (x == m || !Beneath(s.roles, x, m))
    {
      assert AtOrAbove(s'.roles, x, m);
      assert AtOrAbove(s.roles, x, m);
    }
  }

  /**
    A write that puts no role at or above another one that was beneath it: a row
    written lies beneath it as it stands now, and a reorder leaves no role out
    that its new place falls to.
   */
  ghost predicate PutsBeneath(s: State, id: int, w: Write, m: int) {
    match w
    case Insert(_) => !AtOrAbove(Written(s, id, w).roles, id, m)
    case Put(x, _) => !AtOrAbove(Written(s, id, w).roles, x, m)
    case Restack(order) =>
      forall x :: x in s.roles && x !in order && x != m && !AtOrAbove(s.roles, x, m) ==>
        !AtOrAbove(Written(s, id, w).roles, x, m)
    case _ => true
  }

  // --- what a request waits with --------------------------------------------

  /** Places in an order that follow the hierarchy around one role. */
  ghost predicate OrderFits(roles: map<int, Role>, order: seq<int>, m: int)
    requires m in roles
  {
    && Distinct(order) && |order| < OWNER_RANK
    && (m in order <==> !roles[m].managed.Everyone?)
    && (forall x :: x in order && x in roles ==> !roles[x].managed.Everyone?)
    && (forall x :: x in order && x in roles && x != m && m in order ==>
          (Index(order, x) < Index(order, m) <==> Beneath(roles, x, m)))
    && (forall x :: AtOrAbove(roles, x, m) && x !in order ==> roles[m].managed.Everyone?)
  }

  predicate RowFits(row: Role) {
    0 <= row.position < OWNER_RANK && (!row.managed.Everyone? ==> row.position >= 1)
  }

  /** A write still to be made touches nothing from a role up, whatever has been written since it was decided. */
  ghost predicate WriteFits(s: State, last: int, w: Write, m: int)
    requires m in s.roles
  {
    match w
    case Insert(row) => RowFits(row) && row.managed.Unmanaged?
    case Put(x, row) =>
      && x <= last && RowFits(row) && !AtOrAbove(s.roles, x, m)
      && (x in s.roles ==> row.managed == s.roles[x].managed)
      && (row.managed.Everyone? ==> row.position == 0)
    case Remove(x) => x <= last && !AtOrAbove(s.roles, x, m)
    case Grant(_, x) => x <= last && !AtOrAbove(s.roles, x, m)
    case Revoke(_, x) => x <= last && !AtOrAbove(s.roles, x, m)
    case Restack(order) => OrderFits(s.roles, order, m) && forall x :: x in order ==> x <= last
  }

  ghost predicate PendingFit(b: Board, m: int)
    requires m in b.now.roles
  {
    forall i :: 0 <= i < |b.pending| ==> WriteFits(b.now, b.last, b.pending[i].write, m)
  }

  ghost predicate IdsFit(b: Board) {
    forall x :: x in b.now.roles ==> x <= b.last
  }

  // --- one write ------------------------------------------------------------

  lemma InsertKeeps(s: State, last: int, row: Role, m: int)
    requires Valid(s) && m in s.roles && WriteFits(s, last, Insert(row), m)
    requires forall x :: x in s.roles ==> x <= last
    ensures var s' := Written(s, last + 1, Insert(row));
      Valid(s') && (SameAbove(s, s', m) <==> PutsBeneath(s, last + 1, Insert(row), m))
  {
    var id, s' := last + 1, Written(s, last + 1, Insert(row));
    assert id !in s.roles && id in s'.roles;
    if PutsBeneath(s, id, Insert(row), m) {
      forall x
        ensures AtOrAbove(s'.roles, x, m) <==> AtOrAbove(s.roles, x, m)
      {
        assert x != id && x in s.roles ==> s'.roles[x] == s.roles[x];
      }
    } else {
      assert AtOrAbove(s'.roles, id, m) && !AtOrAbove(s.roles, id, m);
    }
  }

  lemma PutKeeps(s: State, last: int, x: int, row: Role, m: int)
    requires Valid(s) && m in s.roles && WriteFits(s, last, Put(x, row), m)
    ensures var s' := Written(s, last + 1, Put(x, row));
      Valid(s') && (SameAbove(s, s', m) <==> PutsBeneath(s, last + 1, Put(x, row), m))
  {
    var s' := Written(s, last + 1, Put(x, row));
    assert x != m;
    assert forall y :: y != x && y in s.roles ==> s'.roles[y] == s.roles[y];
    if PutsBeneath(s, last + 1, Put(x, row), m) {
      forall y
        ensures AtOrAbove(s'.roles, y, m) <==> AtOrAbove(s.roles, y, m)
      {}
    } else {
      assert AtOrAbove(s'.roles, x, m) && !AtOrAbove(s.roles, x, m);
    }
  }

  lemma RemoveKeeps(s: State, last: int, x: int, m: int)
    requires Valid(s) && m in s.roles && WriteFits(s, last, Remove(x), m)
    ensures var s' := Written(s, last + 1, Remove(x));
      Valid(s') && SameAbove(s, s', m)
  {
    var s' := Written(s, last + 1, Remove(x));
    assert x in s.roles ==> x != m;
    assert forall y :: y != x && y in s.roles ==> y in s'.roles && s'.roles[y] == s.roles[y];
  }

  lemma GrantKeeps(s: State, last: int, w: Write, m: int)
    requires Valid(s) && m in s.roles && WriteFits(s, last, w, m) && (w.Grant? || w.Revoke?)
    ensures Valid(Written(s, last + 1, w)) && SameAbove(s, Written(s, last + 1, w), m)
  {
    var ids := if w.Grant? then Explicit(s, w.user) + {w.id} else Explicit(s, w.user) - {w.id};
    if w.id in s.roles {
      GrantChanges(s, w.user, w.id, ids);
    }
  }

  lemma RestackValid(s: State, last: int, order: seq<int>, m: int)
    requires Valid(s) && m in s.roles && WriteFits(s, last, Restack(order), m)
    ensures Valid(Written(s, last + 1, Restack(order)))
  {
    hide AtOrAbove, Index;
  }

  /** Where a role named in the order comes to lie. */
  lemma RestackNamed(s: State, order: seq<int>, m: int, x: int)
    requires Valid(s) && m in s.roles && OrderFits(s.roles, order, m)
    requires (forall y :: y in order ==> y in s.roles) && x in order
    ensures AtOrAbove(Renumbered(s.roles, order), x, m) <==> AtOrAbove(s.roles, x, m)
  {
    var roles' := Renumbered(s.roles, order);
    assert roles'[x].position == Index(order, x) + 1;
    if m in order && x != m {
      assert order[Index(order, x)] == x && order[Index(order, m)] == m;
      hide Index;
    }
  }

  lemma RestackKeeps(s: State, last: int, order: seq<int>, m: int)
    requires Valid(s) && m in s.roles && WriteFits(s, last, Restack(order), m)
    ensures var s' := Written(s, last + 1, Restack(order));
      SameAbove(s, s', m) <==> PutsBeneath(s, last + 1, Restack(order), m)
  {
    var w, s' := Restack(order), Written(s, last + 1, Restack(order));
    if forall x :: x in order ==> x in s.roles {
      assert forall u :: Held(s', u) == Held(s, u);
      hide Index, Beneath, Held;
      forall x | x in order
        ensures AtOrAbove(s'.roles, x, m) <==> AtOrAbove(s.roles, x, m)
      {
        RestackNamed(s, order, m, x);
      }
      if PutsBeneath(s, last + 1, w, m) {
        forall x
          ensures AtOrAbove(s'.roles, x, m) <==> AtOrAbove(s.roles, x, m)
        {
          if x in s.roles && x !in order && x != m && AtOrAbove(s.roles, x, m) {
            EveryoneIsLowest(s, x, m);
            EveryoneIsLowest(s', x, m);
          }
        }
      }
    }
  }

  lemma EveryoneIsLowest(s: State, x: int, m: int)
    requires s.everyone in s.roles && s.roles[s.everyone].position == 0 && x in s.roles && m in s.roles
    requires s.roles[m].managed.Everyone?
    requires forall y :: y in s.roles && y != s.everyone ==> !s.roles[y].managed.Everyone? && s.roles[y].position >= 1
    ensures AtOrAbove(s.roles, x, m)
  {}

  /**
    Whatever is written, the hierarchy from one role up and who holds it stay as
    they were if and only if the write puts nothing at or above it.
   */
  lemma WriteKeeps(s: State, last: int, w: Write, m: int)
    requires Valid(s) && m in s.roles && WriteFits(s, last, w, m)
    requires forall x :: x in s.roles ==> x <= last
    ensures Valid(Written(s, last + 1, w))
    ensures SameAbove(s, Written(s, last + 1, w), m) <==> PutsBeneath(s, last + 1, w, m)
  {
    hide Valid, SameAbove, WriteFits, Written;
    match w
    case Insert(row) => InsertKeeps(s, last, row, m);
    case Put(x, row) => PutKeeps(s, last, x, row, m);
    case Remove(x) => RemoveKeeps(s, last, x, m);
    case Grant(_, _) => GrantKeeps(s, last, w, m);
    case Revoke(_, _) => GrantKeeps(s, last, w, m);
    case Restack(order) =>
      RestackKeeps(s, last, order, m);
      RestackValid(s, last, order, m);
  }

  // --- waiting --------------------------------------------------------------

  /** Around a role the caller may not move, an accepted order follows the hierarchy. */
  lemma OrderedAround(s: State, actor: int, a: Action, m: int, x: int)
    requires Valid(s) && a.Reorder? && Allowed(s, actor, a) && s.owner != Some(actor)
    requires m in s.roles && Rank(s, actor) <= s.roles[m].position
    requires x in a.stack && m in a.stack && x != m
    ensures Index(a.order, x) < Index(a.order, m) <==> Beneath(s.roles, x, m)
  {
    ReorderPermutes(s, actor, a.stack, a.order, a.ceiling);
    StackOrder(s, a.stack);
    assert Index(a.stack, m) >= a.ceiling;
    hide Allowed, Valid, Rank, Index, Distinct;
    assert Index(a.order, m) == Index(a.stack, m);
  }

  lemma ReorderFits(s: State, actor: int, a: Action, m: int)
    requires Valid(s) && a.Reorder? && Allowed(s, actor, a) && s.owner != Some(actor)
    requires m in s.roles && Rank(s, actor) <= s.roles[m].position
    ensures OrderFits(s.roles, a.order, m)
  {
    ReorderPermutes(s, actor, a.stack, a.order, a.ceiling);
    assert IsStack(s, a.stack) && |a.stack| < OWNER_RANK;
    forall x | AtOrAbove(s.roles, x, m) && x !in a.order
      ensures s.roles[m].managed.Everyone?
    {
      assert x == s.everyone;
      hide Allowed, Index;
    }
    hide Allowed, Valid, Rank, Index, Beneath, Distinct;
    forall x | x in a.order && x in s.roles && x != m && m in a.order
      ensures Index(a.order, x) < Index(a.order, m) <==> Beneath(s.roles, x, m)
    {
      OrderedAround(s, actor, a, m, x);
    }
  }

  /** What somebody at most at a role decides touches nothing from it up. */
  lemma DecidedFits(b: Board, actor: int, a: Action, m: int)
    requires Valid(b.now) && IdsFit(b) && Allowed(b.now, actor, a) && b.now.owner != Some(actor)
    requires m in b.now.roles && StandsAtMost(b.now, actor, m)
    ensures WriteFits(b.now, b.last, Decided(b.now, actor, a), m)
    ensures var w := Decided(b.now, actor, a);
      && (w.Insert? || w.Put? ==> w.row.position < b.now.roles[m].position)
      && (w.Restack? ==> forall x :: x in b.now.roles && !b.now.roles[x].managed.Everyone? ==> x in w.order)
  {
    var s := b.now;
    assert s.roles[m].position >= 0;
    AtMostRank(s, actor, m);
    RankBelowOwner(s, actor);
    hide Has, Rank, StandsAtMost;
    if a.Reorder? {
      ReorderFits(s, actor, a, m);
      ReorderPermutes(s, actor, a.stack, a.order, a.ceiling);
      hide OrderFits, Index;
    }
  }

  /** What a write leaves of the table: no role comes but a new one, and none changes its kind. */
  ghost predicate TableStep(s: State, s': State, last: int, last': int) {
    && last <= last'
    && (forall x :: x in s'.roles ==> x <= last' && (x in s.roles || x > last))
    && (forall x :: x in s.roles && x in s'.roles ==> s'.roles[x].managed == s.roles[x].managed)
  }

  lemma MadeStep(b: Board, i: nat)
    requires IdsFit(b) && i < |b.pending|
    ensures var b', rest := After(b, Make(i)), Without(b.pending, i);
      && TableStep(b.now, b'.now, b.last, b'.last)
      && b'.now == Written(b.now, b.last + 1, b.pending[i].write) && |b'.pending| == |rest|
      && forall j :: 0 <= j < |rest| ==> b'.pending[j].write == rest[j].write && rest[j] in b.pending
    ensures var w := b.pending[i].write;
      w.Put? && w.id in b.now.roles ==> After(b, Make(i)).now.roles[w.id].managed == b.now.roles[w.id].managed
  {
    hide Held;
    var rest := Without(b.pending, i);
    assert forall j :: 0 <= j < |rest| ==> rest[j] == if j < i then b.pending[j] else b.pending[j + 1];
  }

  /** What waits still touches nothing from the role up, as long as nothing was put there. */
  lemma StillFits(s: State, s': State, last: int, last': int, w: Write, m: int)
    requires SameAbove(s, s', m) && TableStep(s, s', last, last') && WriteFits(s, last, w, m)
    ensures WriteFits(s', last', w, m)
  {
    hide Held, Index;
    if w.Restack? {
      forall x | x in w.order && x in s'.roles
        ensures x in s.roles && (x != m ==> (Beneath(s'.roles, x, m) <==> Beneath(s.roles, x, m)))
      {
        assert AtOrAbove(s'.roles, x, m) <==> AtOrAbove(s.roles, x, m);
      }
    }
  }

  ghost predicate Fits(b: Board, m: int) {
    Valid(b.now) && IdsFit(b) && m in b.now.roles && PendingFit(b, m)
  }

  lemma DecideKeeps(b: Board, actor: int, a: Action, m: int)
    requires Fits(b, m) && Allowed(b.now, actor, a) && b.now.owner != Some(actor) && StandsAtMost(b.now, actor, m)
    ensures Fits(After(b, Decide(actor, a)), m)
  {
    DecidedFits(b, actor, a, m);
    hide Valid, WriteFits, Allowed, StandsAtMost, Decided;
  }

  lemma MakeKeeps(b: Board, i: nat, m: int)
    requires Fits(b, m) && i < |b.pending| && PutsBeneath(b.now, b.last + 1, b.pending[i].write, m)
    ensures SameAbove(b.now, After(b, Make(i)).now, m) && Fits(After(b, Make(i)), m)
  {
    var b', w := After(b, Make(i)), b.pending[i].write;
    WriteKeeps(b.now, b.last, w, m);
    MadeStep(b, i);
    hide Valid, WriteFits, Written, SameAbove, PutsBeneath, After;
    assert m in b'.now.roles by { SameAboveMeans(b.now, b'.now, m); }
    var rest := Without(b.pending, i);
    hide TableStep, Without;
    forall j | 0 <= j < |b'.pending|
      ensures WriteFits(b'.now, b'.last, b'.pending[j].write, m)
    {
      assert rest[j] in b.pending;
      StillFits(b.now, b'.now, b.last, b'.last, rest[j].write, m);
    }
  }

  lemma SameAboveMeans(s: State, s': State, m: int)
    requires SameAbove(s, s', m)
    ensures m in s.roles && m in s'.roles && s'.owner == s.owner
  {}

  lemma SameAboveAgain(s: State, s1: State, s2: State, m: int)
    requires SameAbove(s, s1, m)
    ensures SameAbove(s1, s2, m) <==> SameAbove(s, s2, m)
  {
    hide Held, Beneath;
  }

  // --- whole runs -----------------------------------------------------------

  /** What is written at a step of a run, if anything is, is put beneath the role. */
  ghost predicate BeneathAt(boards: seq<Board>, steps: seq<Step>, k: nat, m: int)
    requires k < |steps| && k < |boards|
  {
    steps[k].Make? && steps[k].at < |boards[k].pending| ==>
      PutsBeneath(boards[k].now, boards[k].last + 1, boards[k].pending[steps[k].at].write, m)
  }

  lemma {:induction false} RunFits(coalition: set<int>, boards: seq<Board>, steps: seq<Step>, m: int, k: nat)
    requires IsRun(coalition, boards, steps) && k < |boards|
    requires Initial(boards[0]) && AllAtMost(boards[0].now, coalition, m)
    requires forall j: nat :: j < k ==> BeneathAt(boards, steps, j, m)
    ensures Fits(boards[k], m) && SameAbove(boards[0].now, boards[k].now, m)
  {
    if k > 0 {
      RunFits(coalition, boards, steps, m, k - 1);
      assert StepAt(coalition, boards, steps, k - 1);
      assert BeneathAt(boards, steps, k - 1, m);
      var b, step := boards[k - 1], steps[k - 1];
      hide IsRun, Initial, Fits, SameAbove, After, PutsBeneath;
      if step.Decide? {
        SameAboveStands(boards[0].now, b.now, m, step.actor);
        SameAboveMeans(boards[0].now, b.now, m);
        hide StandsAtMost, StandsBelow, Valid, Allowed;
        DecideKeeps(b, step.actor, step.action, m);
        assert boards[k].now == b.now by { DecideLeaves(b, step); }
      } else {
        MakeKeeps(b, step.at, m);
        SameAboveAgain(boards[0].now, b.now, boards[k].now, m);
      }
    }
  }

  lemma DecideLeaves(b: Board, step: Step)
    requires step.Decide? && Enabled(b, step)
    ensures After(b, step).now == b.now
  {}

  /**
    However guards and writes of the members' handlers interleave: from a role
    at or above all they hold, the hierarchy and who holds what of it stay as
    they were if and only if each write, when it is made, puts nothing at or
    above that role.
   */
  lemma {:induction false} HierarchyKeptExactly(
      coalition: set<int>, boards: seq<Board>, steps: seq<Step>, m: int, k: nat)
    requires IsRun(coalition, boards, steps) && k < |boards|
    requires Initial(boards[0]) && AllAtMost(boards[0].now, coalition, m)
    ensures (forall j: nat :: j <= k ==> SameAbove(boards[0].now, boards[j].now, m))
       <==> (forall j: nat :: j < k ==> BeneathAt(boards, steps, j, m))
  {
    hide Initial, AllAtMost, SameAbove, Fits;
    if k == 0 {
      RunFits(coalition, boards, steps, m, 0);
    } else {
      HierarchyKeptExactly(coalition, boards, steps, m, k - 1);
      if forall j: nat :: j < k - 1 ==> BeneathAt(boards, steps, j, m) {
        LastWrite(coalition, boards, steps, m, k);
      }
    }
  }

  lemma LastWrite(coalition: set<int>, boards: seq<Board>, steps: seq<Step>, m: int, k: nat)
    requires IsRun(coalition, boards, steps) && 0 < k < |boards|
    requires Initial(boards[0]) && AllAtMost(boards[0].now, coalition, m)
    requires forall j: nat :: j < k - 1 ==> BeneathAt(boards, steps, j, m)
    ensures SameAbove(boards[0].now, boards[k].now, m) <==> BeneathAt(boards, steps, k - 1, m)
  {
    RunFits(coalition, boards, steps, m, k - 1);
    assert StepAt(coalition, boards, steps, k - 1);
    var b, step := boards[k - 1], steps[k - 1];
    hide IsRun, Initial, AllAtMost, Fits, SameAbove, After, PutsBeneath;
    SameAboveAgain(boards[0].now, b.now, boards[k].now, m);
    if step.Make? {
      MakeExactly(b, step.at, m);
    } else {
      DecideLeaves(b, step);
    }
  }

  lemma MakeExactly(b: Board, i: nat, m: int)
    requires Fits(b, m) && i < |b.pending|
    ensures SameAbove(b.now, After(b, Make(i)).now, m) <==> PutsBeneath(b.now, b.last + 1, b.pending[i].write, m)
  {
    WriteKeeps(b.now, b.last, b.pending[i].write, m);
    hide Valid, WriteFits, SameAbove, PutsBeneath, Written;
  }

  /**
    And then nobody who stood below the role comes to hold it or anything above,
    and the members stay at most there.
   */
  lemma NobodyIsLifted(coalition: set<int>, boards: seq<Board>, steps: seq<Step>, m: int, u: int, k: nat)
    requires IsRun(coalition, boards, steps) && k < |boards|
    requires Initial(boards[0]) && AllAtMost(boards[0].now, coalition, m)
    requires forall j: nat :: j < k ==> BeneathAt(boards, steps, j, m)
    ensures AllAtMost(boards[k].now, coalition, m)
    ensures StandsBelow(boards[k].now, u, m) <==> StandsBelow(boards[0].now, u, m)
  {
    RunFits(coalition, boards, steps, m, k);
    SameAboveMeans(boards[0].now, boards[k].now, m);
    SameAboveStands(boards[0].now, boards[k].now, m, u);
    hide IsRun, Initial, SameAbove, StandsBelow, StandsAtMost;
    forall v | v in coalition
      ensures StandsAtMost(boards[k].now, v, m)
    {
      SameAboveStands(boards[0].now, boards[k].now, m, v);
    }
  }

  /** Whom a write that does put something there lifts: exactly those below the role who hold what it put there. */
  lemma WhoIsLifted(s: State, last: int, w: Write, m: int, u: int)
    requires Valid(s) && m in s.roles && WriteFits(s, last, w, m) && (forall x :: x in s.roles ==> x <= last)
    requires StandsBelow(s, u, m)
    ensures var s' := Written(s, last + 1, w);
      && m in s'.roles
      && (!StandsBelow(s', u, m) <==>
            exists x :: x in Held(s, u) && !AtOrAbove(s.roles, x, m) && AtOrAbove(s'.roles, x, m))
  {
    var s' := Written(s, last + 1, w);
    assert w.Put? || w.Insert? || w.Restack? ==> forall x :: x in Held(s', u) <==> x in Held(s, u);
    if w.Remove? || w.Grant? || w.Revoke? {
      WriteKeeps(s, last, w, m);
      SameAboveStands(s, s', m, u);
    }
    hide Valid, Index;
  }

  // --- what a handler can see to --------------------------------------------

  /** Not overtaken, a row waits beneath the role where it stands now, and a reorder names every role there is. */
  ghost predicate InTime(s: State, r: Request, m: int)
    requires m in s.roles
  {
    r.overtaken
    || match r.write
       case Insert(row) => row.position < s.roles[m].position
       case Put(_, row) => row.position < s.roles[m].position
       case Restack(order) => forall x :: x in s.roles && !s.roles[x].managed.Everyone? ==> x in order
       case _ => true
  }

  lemma InTimeBeneath(s: State, last: int, r: Request, m: int)
    requires Valid(s) && m in s.roles && WriteFits(s, last, r.write, m)
    requires InTime(s, r, m) && !r.overtaken && m <= last
    ensures PutsBeneath(s, last + 1, r.write, m)
  {
    if r.write.Restack? {
      RestackLeavesEveryone(s, last + 1, r.write.order, m);
    }
  }

  lemma RestackLeavesEveryone(s: State, id: int, order: seq<int>, m: int)
    requires Valid(s) && m in s.roles && OrderFits(s.roles, order, m)
    requires forall x :: x in s.roles && !s.roles[x].managed.Everyone? ==> x in order
    ensures PutsBeneath(s, id, Restack(order), m)
  {
    hide Index;
  }

  /** A write leaves the role its position unless it restacks, and the table its roles unless it inserts one. */
  lemma StillInTime(b: Board, i: nat, r: Request, m: int)
    requires Fits(b, m) && i < |b.pending| && InTime(b.now, r, m) && m in After(b, Make(i)).now.roles
    ensures var w := b.pending[i].write;
      InTime(After(b, Make(i)).now, r.(overtaken := r.overtaken || Overtakes(w, r.write)), m)
  {
    var w := b.pending[i].write;
    assert WriteFits(b.now, b.last, w, m);
    assert w.Put? ==> w.id != m;
    MadeStep(b, i);
    hide Valid, Held, Index, OrderFits;
  }

  ghost predicate AllInTime(b: Board, m: int)
    requires m in b.now.roles
  {
    forall i :: 0 <= i < |b.pending| ==> InTime(b.now, b.pending[i], m)
  }

  lemma MakeInTime(b: Board, i: nat, m: int)
    requires Fits(b, m) && i < |b.pending| && AllInTime(b, m) && m in After(b, Make(i)).now.roles
    ensures AllInTime(After(b, Make(i)), m)
  {
    var b' := After(b, Make(i));
    var rest := Without(b.pending, i);
    forall j | 0 <= j < |b'.pending|
      ensures InTime(b'.now, b'.pending[j], m)
    {
      hide InTime, Overtakes, Written;
      assert rest[j] in b.pending;
      StillInTime(b, i, rest[j], m);
    }
  }

  lemma DecideInTime(b: Board, actor: int, a: Action, m: int)
    requires Fits(b, m) && Allowed(b.now, actor, a) && b.now.owner != Some(actor) && StandsAtMost(b.now, actor, m)
    requires AllInTime(b, m)
    ensures AllInTime(After(b, Decide(actor, a)), m)
  {
    DecidedFits(b, actor, a, m);
    hide Fits, Decided, WriteFits, Allowed, StandsAtMost;
  }

  /** The write of this step, if there is one, was not overtaken while it waited. */
  ghost predicate NotOvertakenAt(boards: seq<Board>, steps: seq<Step>, k: nat)
    requires k < |steps| && k < |boards|
  {
    steps[k].Make? && steps[k].at < |boards[k].pending| ==> !boards[k].pending[steps[k].at].overtaken
  }

  lemma OneInTime(b: Board, i: nat, m: int)
    requires Fits(b, m) && AllInTime(b, m) && i < |b.pending| && !b.pending[i].overtaken
    ensures PutsBeneath(b.now, b.last + 1, b.pending[i].write, m)
    ensures m in After(b, Make(i)).now.roles && AllInTime(After(b, Make(i)), m)
  {
    assert InTime(b.now, b.pending[i], m) && WriteFits(b.now, b.last, b.pending[i].write, m);
    InTimeBeneath(b.now, b.last, b.pending[i], m);
    MakeKeeps(b, i, m);
    SameAboveMeans(b.now, After(b, Make(i)).now, m);
    hide InTime, WriteFits, SameAbove, PutsBeneath, Written;
    MakeInTime(b, i, m);
  }

  lemma StepInTime(b: Board, step: Step, m: int)
    requires Fits(b, m) && AllInTime(b, m) && Enabled(b, step)
    requires step.Decide? ==> b.now.owner != Some(step.actor) && StandsAtMost(b.now, step.actor, m)
    requires step.Make? ==> !b.pending[step.at].overtaken
    ensures m in After(b, step).now.roles && AllInTime(After(b, step), m)
    ensures step.Make? ==> PutsBeneath(b.now, b.last + 1, b.pending[step.at].write, m)
  {
    hide AllInTime, StandsAtMost, Allowed;
    if step.Decide? {
      DecideInTime(b, step.actor, step.action, m);
      DecideLeaves(b, step);
    } else {
      OneInTime(b, step.at, m);
    }
  }

  lemma {:induction false} RunInTime(coalition: set<int>, boards: seq<Board>, steps: seq<Step>, m: int, k: nat)
    requires IsRun(coalition, boards, steps) && k < |boards|
    requires Initial(boards[0]) && AllAtMost(boards[0].now, coalition, m)
    requires forall j: nat :: j < k ==> NotOvertakenAt(boards, steps, j)
    ensures forall j: nat :: j < k ==> BeneathAt(boards, steps, j, m)
    ensures m in boards[k].now.roles && AllInTime(boards[k], m)
  {
    if k > 0 {
      RunInTime(coalition, boards, steps, m, k - 1);
      assert StepAt(coalition, boards, steps, k - 1) && NotOvertakenAt(boards, steps, k - 1);
      RunFits(coalition, boards, steps, m, k - 1);
      NobodyIsLifted(coalition, boards, steps, m, 0, k - 1);
      LastInTime(coalition, boards, steps, m, k);
    }
  }

  lemma LastInTime(coalition: set<int>, boards: seq<Board>, steps: seq<Step>, m: int, k: nat)
    requires 0 < k < |boards| == |steps| + 1 && StepAt(coalition, boards, steps, k - 1)
    requires NotOvertakenAt(boards, steps, k - 1) && AllAtMost(boards[k - 1].now, coalition, m)
    requires Fits(boards[k - 1], m) && AllInTime(boards[k - 1], m)
    ensures BeneathAt(boards, steps, k - 1, m)
    ensures m in boards[k].now.roles && AllInTime(boards[k], m)
  {
    hide Fits, AllInTime, StandsAtMost, Allowed, After, PutsBeneath;
    StepInTime(boards[k - 1], steps[k - 1], m);
  }

  /**
    It is enough that no create and no update is written once a reorder has been
    written since its guards, and no reorder once a role has been created since:
    then whatever members of a coalition do together, nobody who stood below
    their top comes to hold it or anything above.
   */
  lemma {:induction false} NoCoalitionLiftsInterleaved(
      coalition: set<int>, boards: seq<Board>, steps: seq<Step>, m: int, u: int, k: nat)
    requires IsRun(coalition, boards, steps) && k < |boards|
    requires Initial(boards[0]) && AllAtMost(boards[0].now, coalition, m)
    requires forall j: nat :: j < k ==> NotOvertakenAt(boards, steps, j)
    ensures AllAtMost(boards[k].now, coalition, m)
    ensures StandsBelow(boards[0].now, u, m) ==> StandsBelow(boards[k].now, u, m)
  {
    RunInTime(coalition, boards, steps, m, k);
    hide IsRun, Initial, AllAtMost, StandsBelow, NotOvertakenAt, BeneathAt;
    NobodyIsLifted(coalition, boards, steps, m, u, k);
  }

  // --- without reorders -----------------------------------------------------

  /** A write still to be made touches nothing from a rank up. */
  ghost predicate WriteBelow(s: State, last: int, w: Write, top: int) {
    match w
    case Insert(row) => RowFits(row) && row.managed.Unmanaged? && row.position < top
    case Put(x, row) =>
      && x <= last && RowFits(row) && row.position < top
      && (x in s.roles ==> s.roles[x].position < top && row.managed == s.roles[x].managed)
      && (row.managed.Everyone? ==> row.position == 0)
    case Remove(x) => x <= last && (x in s.roles ==> s.roles[x].position < top)
    case Grant(_, x) => x <= last && (x in s.roles ==> s.roles[x].position < top)
    case Revoke(_, x) => x <= last && (x in s.roles ==> s.roles[x].position < top)
    case Restack(_) => false
  }

  lemma WriteSame(s: State, last: int, w: Write, top: int)
    requires Valid(s) && WriteBelow(s, last, w, top) && forall x :: x in s.roles ==> x <= last
    ensures Valid(Written(s, last + 1, w)) && SameFrom(s, Written(s, last + 1, w), top)
  {
    if w.Grant? || w.Revoke? {
      if w.id in s.roles {
        var ids := if w.Grant? then Explicit(s, w.user) + {w.id} else Explicit(s, w.user) - {w.id};
        GrantChanges(s, w.user, w.id, ids);
        hide Held;
      }
    }
  }

  lemma DecidedBelow(b: Board, actor: int, a: Action, top: int)
    requires Valid(b.now) && IdsFit(b) && Allowed(b.now, actor, a) && b.now.owner != Some(actor) && !a.Reorder?
    requires Rank(b.now, actor) <= top
    ensures WriteBelow(b.now, b.last, Decided(b.now, actor, a), top)
  {
    RankBelowOwner(b.now, actor);
    hide Has, Rank;
  }

  lemma StillBelow(s: State, s': State, last: int, last': int, w: Write, top: int)
    requires SameFrom(s, s', top) && TableStep(s, s', last, last') && WriteBelow(s, last, w, top)
    ensures WriteBelow(s', last', w, top)
  {
    hide Held;
  }

  ghost predicate FitsBelow(b: Board, top: int) {
    && Valid(b.now) && IdsFit(b)
    && forall i :: 0 <= i < |b.pending| ==> WriteBelow(b.now, b.last, b.pending[i].write, top)
  }

  lemma MakeBelow(b: Board, i: nat, top: int)
    requires FitsBelow(b, top) && i < |b.pending|
    ensures FitsBelow(After(b, Make(i)), top) && SameFrom(b.now, After(b, Make(i)).now, top)
  {
    var b', w := After(b, Make(i)), b.pending[i].write;
    WriteSame(b.now, b.last, w, top);
    MadeStep(b, i);
    hide Valid, WriteBelow, Written, SameFrom, After;
    var rest := Without(b.pending, i);
    hide TableStep, Without;
    forall j | 0 <= j < |b'.pending|
      ensures WriteBelow(b'.now, b'.last, b'.pending[j].write, top)
    {
      assert rest[j] in b.pending;
      StillBelow(b.now, b'.now, b.last, b'.last, rest[j].write, top);
    }
  }

  lemma SameFromAgain(s: State, s1: State, s2: State, top: int)
    requires SameFrom(s, s1, top) && SameFrom(s1, s2, top)
    ensures SameFrom(s, s2, top)
  {
    hide Held;
  }

  lemma StepBelow(b: Board, step: Step, top: int)
    requires FitsBelow(b, top) && Enabled(b, step)
    requires step.Decide? ==>
      !step.action.Reorder? && b.now.owner != Some(step.actor) && Rank(b.now, step.actor) <= top
    ensures FitsBelow(After(b, step), top) && SameFrom(b.now, After(b, step).now, top)
  {
    if step.Make? {
      hide FitsBelow, After, SameFrom;
      MakeBelow(b, step.at, top);
    } else {
      DecidedBelow(b, step.actor, step.action, top);
      hide Valid, WriteBelow, Decided, Allowed, Rank, Held;
    }
  }

  lemma {:induction false} RunBelow(coalition: set<int>, boards: seq<Board>, steps: seq<Step>, top: int, k: nat)
    requires IsRun(coalition, boards, steps) && k < |boards| && top <= OWNER_RANK
    requires Initial(boards[0]) && AllRankAtMost(boards[0].now, coalition, top)
    requires forall j :: 0 <= j < |steps| ==> !(steps[j].Decide? && steps[j].action.Reorder?)
    ensures FitsBelow(boards[k], top) && SameFrom(boards[0].now, boards[k].now, top)
  {
    if k > 0 {
      RunBelow(coalition, boards, steps, top, k - 1);
      assert StepAt(coalition, boards, steps, k - 1);
      var b, step := boards[k - 1], steps[k - 1];
      assert step.Decide? ==> !step.action.Reorder?;
      hide IsRun, Initial, SameFrom, Valid, Rank, FitsBelow, After, Allowed;
      if step.Decide? {
        RankKept(boards[0].now, b.now, top, step.actor);
      }
      StepBelow(b, step, top);
      SameFromAgain(boards[0].now, b.now, boards[k].now, top);
    }
  }

  lemma RankKept(s: State, s': State, top: int, u: int)
    requires SameFrom(s, s', top) && top <= OWNER_RANK
    ensures s'.owner == s.owner
    ensures Rank(s, u) >= top ==> Rank(s', u) == Rank(s, u)
    ensures Rank(s, u) < top ==> Rank(s', u) < top
    ensures Rank(s, u) <= top ==> Rank(s', u) <= top
  {
    RanksFrom(s, s', top, u);
  }

  /**
    Without reorders interleaving harms nothing: ranks from the coalition's top up
    are exact, those below stay below.
   */
  lemma {:induction false} NoCoalitionOutranksInterleaved(
      coalition: set<int>, boards: seq<Board>, steps: seq<Step>, top: int, u: int, k: nat)
    requires IsRun(coalition, boards, steps) && k < |boards|
    requires Initial(boards[0]) && AllRankAtMost(boards[0].now, coalition, top)
    requires forall j :: 0 <= j < |steps| ==> !(steps[j].Decide? && steps[j].action.Reorder?)
    ensures top <= OWNER_RANK ==> AllRankAtMost(boards[k].now, coalition, top)
    ensures Rank(boards[0].now, u) >= top ==> Rank(boards[k].now, u) == Rank(boards[0].now, u)
    ensures Rank(boards[0].now, u) < top ==> Rank(boards[k].now, u) < top
  {
    var bound := if top <= OWNER_RANK then top else OWNER_RANK;
    assert AllRankAtMost(boards[0].now, coalition, bound) by {
      forall v { RankBelowOwner(boards[0].now, v); }
    }
    RunBelow(coalition, boards, steps, bound, k);
    RankBelowOwner(boards[0].now, u);
    RankBelowOwner(boards[k].now, u);
    hide IsRun, SameFrom, Valid, Rank;
    RankKept(boards[0].now, boards[k].now, bound, u);
    forall v | v in coalition
      ensures boards[k].now.owner != Some(v) && Rank(boards[k].now, v) <= bound
    {
      RankKept(boards[0].now, boards[k].now, bound, v);
    }
  }

  // --- a run that lifts somebody --------------------------------------------

  /** The roles the server is seeded with and one more; two people hold the admin role, a third the new one. */
  ghost predicate Seeded(s: State, one: int, other: int, third: int) {
    && s.owner.None? && s.everyone == 1 && s.registeredRole == 2
    && (forall x :: x in s.roles <==> x == 1 || x == 2 || x == 3 || x == 4)
    && s.roles[1].position == 0 && s.roles[1].managed.Everyone?
    && s.roles[2].position == 1 && s.roles[2].managed.Registered?
    && s.roles[3].position == 100 && s.roles[3].managed.Admin? && ADMINISTRATOR in s.roles[3].perms
    && s.roles[4].position == 2 && s.roles[4].managed.Unmanaged?
    && (forall u :: u in s.grants <==> u == one || u == other || u == third)
    && s.grants[one] == {3} && s.grants[other] == {3} && s.grants[third] == {4}
    && one != third && other != third
  }

  lemma SeededHeld(s: State, one: int, other: int, third: int)
    requires Seeded(s, one, other, third)
    ensures 3 in Held(s, one) && 3 in Held(s, other) && 4 in Held(s, third)
    ensures forall x :: x in Held(s, third) ==> x != 3
    ensures Valid(s)
  {}

  lemma RankIs(s: State, u: int, x: int)
    requires s.owner != Some(u) && x in Held(s, u) && s.roles[x].position >= 0
    requires forall y :: y in Held(s, u) ==> s.roles[y].position <= s.roles[x].position
    ensures Rank(s, u) == s.roles[x].position
  {}

  lemma SeededRanks(s: State, one: int, other: int, third: int)
    requires Seeded(s, one, other, third)
    ensures Rank(s, one) == 100 && Rank(s, other) == 100
    ensures AllAtMost(s, {one, other}, 3) && StandsBelow(s, third, 3)
    ensures MayManage(s, one) && MayManage(s, other)
  {
    SeededHeld(s, one, other, third);
    hide Held, Valid;
    RankIs(s, one, 3);
    RankIs(s, other, 3);
  }

  /** Everything from the second role up, as it stands. */
  const STACK: seq<int> := [2, 4, 3]

  lemma StackIs()
    ensures Index(STACK, 2) == 0 && Index(STACK, 4) == 1 && Index(STACK, 3) == 2 && |STACK| == 3
    ensures forall x :: x in STACK <==> x == 2 || x == 4 || x == 3
    ensures Distinct(STACK)
  {
    assert STACK[0] == 2 && STACK[1] == 4 && STACK[2] == 3;
    assert STACK[1..] == [4, 3] && [4, 3][1..] == [3];
  }

  lemma UpdateAllowed(s: State, one: int, other: int, third: int)
    requires Seeded(s, one, other, third)
    ensures Allowed(s, other, Update(4, false, None, Some(99)))
  {
    SeededRanks(s, one, other, third);
    assert WithinStack(s, 99) by { assert 99 <= s.roles[3].position; }
    hide MayManage, Rank, Held, AllAtMost, StandsBelow, WithinStack;
  }

  lemma SeededStack(s: State, one: int, other: int, third: int)
    requires Seeded(s, one, other, third)
    ensures IsStack(s, STACK)
  {
    StackIs();
    assert STACK[0] == 2 && STACK[1] == 4 && STACK[2] == 3;
    hide Index, Held;
  }

  lemma RestackAllowed(s: State, one: int, other: int, third: int)
    requires Seeded(s, one, other, third)
    ensures Allowed(s, one, Reorder(STACK, STACK, 2))
  {
    SeededRanks(s, one, other, third);
    SeededStack(s, one, other, third);
    StackIs();
    hide MayManage, Rank, Index, Held, AllAtMost, StandsBelow, Distinct, IsStack;
    assert IsCeiling(s, one, STACK, 2);
    hide Seeded, IsCeiling;
    assert STACK[0] == 2 && STACK[1] == 4 && STACK[2] == 3;
  }

  /** What the two writes make of the table, the reorder first. */
  ghost predicate Raised(s: State, s': State) {
    && s' == s.(roles := s'.roles)
    && (forall x :: x in s'.roles <==> x == 1 || x == 2 || x == 3 || x == 4)
    && s'.roles[1].position == 0 && s'.roles[2].position == 1
    && s'.roles[3].position == 3 && s'.roles[4].position == 99
  }

  lemma BothWritten(s: State, row: Role, one: int, other: int, third: int)
    requires Seeded(s, one, other, third) && row.position == 99
    ensures Raised(s, Written(Written(s, 5, Restack(STACK)), 5, Put(4, row)))
  {
    StackIs();
    hide Index, Held;
  }

  lemma RaisedLifts(s: State, s': State, one: int, other: int, third: int)
    requires Seeded(s, one, other, third) && Raised(s, s')
    ensures Rank(s', third) == 99 && Rank(s', one) == 3 && Rank(s', other) == 3 && !StandsBelow(s', third, 3)
  {
    SeededHeld(s, one, other, third);
    assert forall u, x :: x in Held(s', u) <==> x in Held(s, u);
    assert forall x :: x in Held(s, one) || x in Held(s, other) ==> x != 4;
    hide Held, Valid;
    RankIs(s', third, 4);
    RankIs(s', one, 3);
    RankIs(s', other, 3);
    assert !Beneath(s'.roles, 4, 3);
  }

  lemma BothDecided(b: Board, one: int, other: int, third: int, row: Role)
    requires b.last == 4 && b.pending == [] && Seeded(b.now, one, other, third)
    requires row == b.now.roles[4].(position := 99)
    ensures var up, down := Decide(other, Update(4, false, None, Some(99))), Decide(one, Reorder(STACK, STACK, 2));
      && Enabled(b, up) && After(b, up) == Board(b.now, 4, [Request(Put(4, row), false)])
      && Enabled(After(b, up), down)
      && After(After(b, up), down) == Board(b.now, 4, [Request(Put(4, row), false), Request(Restack(STACK), false)])
  {
    UpdateAllowed(b.now, one, other, third);
    RestackAllowed(b.now, one, other, third);
    hide Allowed, Rank, Seeded;
  }

  lemma BothMade(b: Board, row: Role)
    requires b.last == 4 && b.pending == [Request(Put(4, row), false), Request(Restack(STACK), false)]
    ensures Enabled(b, Make(1)) && Enabled(After(b, Make(1)), Make(0))
    ensures After(After(b, Make(1)), Make(0)).now == Written(Written(b.now, 5, Restack(STACK)), 5, Put(4, row))
  {
    hide Written;
    assert Without(b.pending, 1) == [Request(Put(4, row), false)];
  }

  lemma FourSteps(coalition: set<int>, b: Board, first: Step, second: Step, third: Step, fourth: Step)
    returns (boards: seq<Board>, steps: seq<Step>)
    requires (first.Decide? ==> first.actor in coalition) && (second.Decide? ==> second.actor in coalition)
    requires third.Make? && fourth.Make?
    requires Enabled(b, first) && Enabled(After(b, first), second) && Enabled(After(After(b, first), second), third)
    requires Enabled(After(After(After(b, first), second), third), fourth)
    ensures IsRun(coalition, boards, steps) && |steps| == 4 && boards[0] == b
    ensures steps == [first, second, third, fourth] && boards[3] == After(After(After(b, first), second), third)
    ensures boards[4] == After(boards[3], fourth)
  {
    hide Enabled, After;
    var b1 := After(b, first);
    var b2 := After(b1, second);
    var b3 := After(b2, third);
    steps, boards := [first, second, third, fourth], [b, b1, b2, b3, After(b3, fourth)];
  }

  /**
    One of two administrators sends a role to just beneath the top, the other
    restacks the roles as they are, and the reorder is written first: the role
    comes to lie above the administrators', and so does whoever holds it.
   */
  lemma ReorderOvertakesUpdate(b: Board, one: int, other: int, third: int)
    returns (boards: seq<Board>, steps: seq<Step>, end: State)
    requires b.last == 4 && b.pending == [] && Seeded(b.now, one, other, third)
    ensures Initial(b) && AllAtMost(b.now, {one, other}, 3) && StandsBelow(b.now, third, 3)
    ensures IsRun({one, other}, boards, steps) && boards[0] == b && |steps| == 4 && boards[4].now == end
    ensures 3 in end.roles && !StandsBelow(end, third, 3)
    ensures Rank(end, third) == 99 && Rank(end, one) == 3 && Rank(end, other) == 3
  {
    var s, row := b.now, b.now.roles[4].(position := 99);
    var up, down := Decide(other, Update(4, false, None, Some(99))), Decide(one, Reorder(STACK, STACK, 2));
    end := Written(Written(s, 5, Restack(STACK)), 5, Put(4, row));
    SeededHeld(s, one, other, third);
    SeededRanks(s, one, other, third);
    BothDecided(b, one, other, third, row);
    BothWritten(s, row, one, other, third);
    RaisedLifts(s, end, one, other, third);
    hide Rank, AllAtMost, StandsBelow, Valid, Held, Written, Seeded, Enabled, After, IsRun;
    BothMade(After(After(b, up), down), row);
    boards, steps := FourSteps({one, other}, b, up, down, Make(1), Make(0));
  }
}
