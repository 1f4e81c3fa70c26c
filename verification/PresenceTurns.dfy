/**
  When the feed is right, told from what is under way: if at every moment at most
  one thing under way concerns how one viewer is shown one user, the viewer's
  frames are right whenever nothing is. And a run in which two things are.

  Under way are the tasks of PresenceRaces. One concerns a viewer and a user if it
  is to change the user, to read them for a telling, or to tell the viewer of them.
 */
module PresenceTurns {
  import opened Wrappers
  import opened Presence
  import opened PresenceRaces
  import Collections

  // --- what concerns a viewer and a user ------------------------------------

  predicate Belongs(f: Feed, n: nat, u: int) {
    n < |f.sessions| && f.sessions[n].user == u
  }

  /** A telling with a word about the user that the viewer has still to be told. */
  predicate HasWord(f: Feed, speech: Speech, left: set<nat>, v: int, u: int) {
    && IsLive(f, v) && f.live[v] in left
    && WordTo(speech, v).Say? && IsAbout(WordTo(speech, v).frame, u)
  }

  /** Whether a task bears on what a viewer is shown of a user. */
  predicate Concerns(f: Feed, t: Task, v: int, u: int) {
    match t
    case Join(x, _) => x == u
    case MakeSnapshot(n) => IsLive(f, v) && f.live[v] == n
    case Announce(n) => v != u && Belongs(f, n, u)
    case Find(x, _, _) => x == u
    case SetRow(n, _, _) => Belongs(f, n, u)
    case TellChange(n, _) => Belongs(f, n, u)
    case TellMember(n) => Belongs(f, n, u)
    case TellAbsent(x) => x == u
    case Leave(n, _) => IsLive(f, u) && f.live[u] == n
    case TellDeparture(x, _) => x == u && u !in f.live
    case Tell(speech, left, _) => HasWord(f, speech, left, v, u)
  }

  predicate Quiet(f: Feed, v: int, u: int) {
    forall t :: t in f.tasks ==> !Concerns(f, t, v, u)
  }

  /** At most one task bears on them. */
  ghost predicate InTurn(f: Feed, v: int, u: int) {
    forall i, j | 0 <= i < |f.tasks| && 0 <= j < |f.tasks| ::
      Concerns(f, f.tasks[i], v, u) && Concerns(f, f.tasks[j], v, u) ==> i == j
  }

  /** Nobody reports over a session another one has taken the place of. */
  predicate Orderly(f: Feed, a: PresenceRaces.Action, u: int) {
    a.Report? && Belongs(f, a.session, u) ==> IsLive(f, u) && f.live[u] == a.session
  }

  // --- what is owed ---------------------------------------------------------

  predicate Synced(f: Feed, u: int) {
    IsLive(f, u) ==> u in f.stored && f.sessions[f.live[u]].profile == f.stored[u]
  }

  predicate Agrees(f: Feed, v: int, u: int) {
    IsLive(f, v) ==> Shows(Fold(Frames(OutOf(f, v))), u) == SeenNow(f, v, u)
  }

  predicate Settled(f: Feed, v: int, u: int) {
    Synced(f, u) && Agrees(f, v, u)
  }

  predicate Now(f: Feed, n: nat, u: int) {
    IsLive(f, u) && f.live[u] == n
  }

  /** What is to be so while a task that concerns them is under way, for its end to leave them right. */
  predicate Holds(f: Feed, t: Task, v: int, u: int) {
    match t
    case Join(_, row) => Settled(f, v, u) && u in f.stored && row == f.stored[u]
    case MakeSnapshot(_) => Synced(f, u)
    case Announce(n) => Now(f, n, u) && Synced(f, u) && (HidesPresence(ViewNow(f, u).status) ==> Agrees(f, v, u))
    case Find(_, row, noting) =>
      Agrees(f, v, u) && u in f.stored && row == f.stored[u] && (noting || Synced(f, u))
    case SetRow(n, was, row) =>
      && Now(f, n, u) && Agrees(f, v, u) && u in f.stored && row == f.stored[u]
      && (was.None? ==> Synced(f, u)) && (was.Some? ==> was.value == f.sessions[n].profile.status)
    case TellChange(n, was) =>
      && Now(f, n, u) && Synced(f, u) && (WordTo(Telling(f, n, was), v).Silent? ==> Agrees(f, v, u))
    case TellMember(n) => Now(f, n, u) && Synced(f, u)
    case TellAbsent(_) => !IsLive(f, u)
    case Leave(n, status) => Settled(f, v, u) && Now(f, n, u) && status == f.sessions[n].profile.status
    case TellDeparture(_, status) => HidesPresence(status) ==> Agrees(f, v, u)
    case Tell(speech, _, _) =>
      Synced(f, u) && WordTo(speech, v).Say? && Shown(WordTo(speech, v).frame, u) == SeenNow(f, v, u)
  }

  predicate Grounded(t: Task, count: nat) {
    match t
    case Join(_, _) => true
    case MakeSnapshot(n) => n < count
    case Announce(n) => n < count
    case Find(_, _, _) => true
    case SetRow(n, _, _) => n < count
    case TellChange(n, _) => n < count
    case TellMember(n) => n < count
    case TellAbsent(_) => true
    case Leave(n, _) => n < count
    case TellDeparture(_, _) => true
    case Tell(_, left, _) => forall n :: n in left ==> n < count
  }

  ghost predicate Sound(f: Feed) {
    Linked(f) && forall t :: t in f.tasks ==> Grounded(t, |f.sessions|)
  }

  ghost predicate Owes(f: Feed, v: int, u: int) {
    && (forall t :: t in f.tasks && Concerns(f, t, v, u) ==> Holds(f, t, v, u))
    && (Quiet(f, v, u) ==> Settled(f, v, u))
  }

  // --- one concern replaced by the next -------------------------------------

  /** Where things go in turn, one task under way that holds is all there is to ask. */
  lemma TurnTaken(f: Feed, t: Task, v: int, u: int)
    requires InTurn(f, v, u) && t in f.tasks && Concerns(f, t, v, u) && Holds(f, t, v, u)
    ensures Owes(f, v, u)
  {
    hide Concerns, Holds;
  }

  /** Sessions stay whose they are, and the two of them have the same ones. */
  ghost predicate SamePlaces(f: Feed, f': Feed, v: int, u: int) {
    && SameUsers(f.sessions, f'.sessions)
    && (v in f.live <==> v in f'.live) && (v in f.live ==> f'.live[v] == f.live[v])
    && (u in f.live <==> u in f'.live) && (u in f.live ==> f'.live[u] == f.live[u])
  }

  lemma ConcernsAlike(f: Feed, f': Feed, t: Task, v: int, u: int)
    requires Linked(f) && SamePlaces(f, f', v, u) && Grounded(t, |f.sessions|)
    ensures Concerns(f', t, v, u) <==> Concerns(f, t, v, u)
  {}

  /** What a handler has begun leaves nothing else under way, so all was settled before. */
  lemma BegunQuiet(f: Feed, f': Feed, rest: seq<Task>, t: Task, v: int, u: int)
    requires Sound(f) && Owes(f, v, u) && SamePlaces(f, f', v, u) && f'.tasks == rest + [t]
    requires forall x :: x in f.tasks && Concerns(f, x, v, u) ==> x in rest
    requires InTurn(f', v, u) && Concerns(f', t, v, u)
    ensures Settled(f, v, u)
  {
    hide Concerns, Settled, Grounded;
    forall x | x in f.tasks
      ensures !Concerns(f, x, v, u)
    {
      ConcernsAlike(f, f', x, v, u);
      if x in rest {
        var i :| 0 <= i < |rest| && rest[i] == x;
        assert f'.tasks[i] == x && f'.tasks[|rest|] == t;
      }
    }
  }

  /** The viewer's frames and the user read as before. */
  ghost predicate SameRead(f: Feed, f': Feed, v: int, u: int) {
    && (u in f.stored <==> u in f'.stored) && (u in f.stored ==> f'.stored[u] == f.stored[u])
    && (IsLive(f, u) ==> IsLive(f', u) && f'.sessions[f'.live[u]].profile == f.sessions[f.live[u]].profile)
    && (IsLive(f, u) ==> f'.sessions[f'.live[u]].activity == f.sessions[f.live[u]].activity)
    && (IsLive(f, v) ==>
      Shows(Fold(Frames(OutOf(f', v))), u) == Shows(Fold(Frames(OutOf(f, v))), u))
  }

  lemma SettledAlike(f: Feed, f': Feed, v: int, u: int)
    requires Linked(f) && SamePlaces(f, f', v, u) && SameRead(f, f', v, u)
    ensures Settled(f, v, u) ==> Settled(f', v, u)
  {
    hide Fold, Shows, Frames;
  }

  lemma HoldsAlike(f: Feed, f': Feed, t: Task, v: int, u: int)
    requires Linked(f) && SamePlaces(f, f', v, u) && SameRead(f, f', v, u)
    ensures Holds(f, t, v, u) ==> Holds(f', t, v, u)
  {
    SettledAlike(f, f', v, u);
    hide Fold, Shows, Frames, Shown;
  }

  /** What concerns them stays, and all else bears on other people. */
  lemma ElsewhereKept(f: Feed, f': Feed, v: int, u: int)
    requires Sound(f) && Owes(f, v, u) && SamePlaces(f, f', v, u) && SameRead(f, f', v, u)
    requires forall t :: t in f.tasks && Concerns(f, t, v, u) ==> t in f'.tasks
    requires forall t :: t in f'.tasks && t !in f.tasks ==> !Concerns(f', t, v, u)
    ensures Owes(f', v, u)
  {
    hide Concerns, Holds, Settled, Grounded, SameRead;
    forall t ensures t in f.tasks ==> (Concerns(f', t, v, u) <==> Concerns(f, t, v, u)) {
      if t in f.tasks { ConcernsAlike(f, f', t, v, u); }
    }
    SettledAlike(f, f', v, u);
    forall t ensures Holds(f, t, v, u) ==> Holds(f', t, v, u) {
      HoldsAlike(f, f', t, v, u);
    }
  }

  // --- a handler begins -----------------------------------------------------

  predicate Begins(a: PresenceRaces.Action) {
    !a.Perform? && !a.Deliver?
  }

  /** What a handler begins with; an unchanged report begins nothing. */
  ghost function FirstTask(f: Feed, a: PresenceRaces.Action): Option<Task>
    requires PresenceRaces.Enabled(f, a) && Begins(a)
  {
    match a
    case Load(u) => Some(Join(u, f.stored[u]))
    case Store(u, row) => Some(Find(u, row, true))
    case Reread(u) => Some(Find(u, f.stored[u], false))
    case Report(n, activity) =>
      if SameActivity(f.sessions[n].activity, activity) then None else Some(TellChange(n, None))
    case ChangeMember(u) => Some(if IsLive(f, u) then TellMember(f.live[u]) else TellAbsent(u))
    case Resync(n) => Some(MakeSnapshot(n))
    case Close(n) => Some(Leave(n, f.sessions[n].profile.status))
  }

  lemma BegunTasks(f: Feed, a: PresenceRaces.Action, v: int, u: int)
    requires Linked(f) && PresenceRaces.Enabled(f, a) && Begins(a)
    ensures var f', t := After(f, a), FirstTask(f, a);
      SamePlaces(f, f', v, u) && f'.tasks == (if t.Some? then f.tasks + [t.value] else f.tasks)
  {
    hide SameActivity;
  }

  lemma BegunElsewhere(f: Feed, a: PresenceRaces.Action, v: int, u: int)
    requires Linked(f) && PresenceRaces.Enabled(f, a) && Begins(a)
    requires FirstTask(f, a).Some? ==> !Concerns(After(f, a), FirstTask(f, a).value, v, u)
    ensures SameRead(f, After(f, a), v, u)
  {
    hide SameActivity, Fold, Frames, Shows;
  }

  /** A handler begun on what was settled owes what it is about to make good. */
  lemma BegunHolds(f: Feed, a: PresenceRaces.Action, v: int, u: int)
    requires Linked(f) && PresenceRaces.Enabled(f, a) && Begins(a) && Orderly(f, a, u) && Settled(f, v, u)
    requires FirstTask(f, a).Some? && Concerns(After(f, a), FirstTask(f, a).value, v, u)
    ensures Holds(After(f, a), FirstTask(f, a).value, v, u)
  {
    hide SameActivity, Fold, Frames, Shows;
  }

  lemma BegunOwes(f: Feed, a: PresenceRaces.Action, v: int, u: int)
    requires Sound(f) && Owes(f, v, u) && PresenceRaces.Enabled(f, a) && Begins(a) && Orderly(f, a, u)
    requires InTurn(After(f, a), v, u)
    ensures Owes(After(f, a), v, u)
  {
    BegunTasks(f, a, v, u);
    var f', t := After(f, a), FirstTask(f, a);
    hide After, FirstTask, Concerns, Holds, Settled, Orderly, Begins, PresenceRaces.Enabled, SamePlaces, SameRead;
    if t.Some? && Concerns(f', t.value, v, u) {
      hide InTurn, Owes;
      BegunQuiet(f, f', f.tasks, t.value, v, u);
      BegunHolds(f, a, v, u);
      assert t.value in f'.tasks;
      TurnTaken(f', t.value, v, u);
    } else {
      BegunElsewhere(f, a, v, u);
      hide Owes;
      ElsewhereKept(f, f', v, u);
    }
  }

  // --- a task is performed --------------------------------------------------

  /** What any task but a join leaves to be done next. */
  function Following(f: Feed, t: Task): Option<Task>
    requires Grounded(t, |f.sessions|) && !t.Join?
  {
    match t
    case MakeSnapshot(n) =>
      Some(Tell(OfEverybody(MembersNow(f, f.sessions[n].user)), {n}, Origin(f.clock, Everybody)))
    case Announce(n) => Some(Broadcasting(f, OfArrival(f.sessions[n].user, EntryOf(f.sessions[n])), Of(n)))
    case Find(u, row, noting) =>
      if IsLive(f, u) then
        Some(SetRow(f.live[u], if noting then Some(f.sessions[f.live[u]].profile.status) else None, row))
      else if noting then Some(TellAbsent(u))
      else None
    case SetRow(n, was, _) => Some(TellChange(n, was))
    case TellChange(n, was) => Some(Broadcasting(f, Telling(f, n, was), Of(n)))
    case TellMember(n) => Some(Broadcasting(f, OfMember(f.sessions[n].user, EntryOf(f.sessions[n])), Of(n)))
    case TellAbsent(u) => Some(Broadcasting(f, OfMember(u, AWAY), Absence))
    case Leave(n, status) => Some(TellDeparture(f.sessions[n].user, status))
    case TellDeparture(u, status) =>
      if u in f.live || HidesPresence(status) then None else Some(Broadcasting(f, OfDeparture(u), Absence))
    case Tell(_, _, _) => None
  }

  function Broadcasting(f: Feed, speech: Speech, source: Source): Task {
    Tell(speech, Audience(f), Origin(f.clock, source))
  }

  lemma PerformedTasks(f: Feed, t: Task)
    requires Grounded(t, |f.sessions|) && !t.Join?
    ensures var next := Following(f, t);
      Performed(f, t).tasks == (if next.Some? then f.tasks + [next.value] else f.tasks)
  {
    hide MembersNow, Audience, EntryOf;
  }

  lemma Taken(tasks: seq<Task>, i: nat, t: Task)
    requires i < |tasks| && t in tasks && t != tasks[i]
    ensures t in Collections.Without(tasks, i)
  {
    var j :| 0 <= j < |tasks| && tasks[j] == t;
    assert j < i ==> Collections.Without(tasks, i)[j] == t;
    assert j > i ==> Collections.Without(tasks, i)[j - 1] == t;
  }

  lemma StaysLive(f: Feed, v: int)
    requires Linked(f) && IsLive(f, v)
    ensures f.live[v] in Audience(f)
  {}

  /** Whether a task sends something. */
  predicate Sends(t: Task) {
    t.Announce? || t.TellChange? || t.TellMember? || t.TellAbsent? || t.TellDeparture?
  }

  /** A task that does not concern them changes nothing for them and leaves none that does. */
  lemma PerformedElsewhere(f: Feed, t: Task, v: int, u: int)
    requires Linked(f) && Grounded(t, |f.sessions|) && !t.Join? && !t.Leave? && !Concerns(f, t, v, u)
    ensures var f' := Performed(f, t); SamePlaces(f, f', v, u) && SameRead(f, f', v, u)
    ensures var next := Following(f, t); next.Some? ==> !Concerns(Performed(f, t), next.value, v, u)
  {
    hide Fold, Frames, Shows, MembersNow, Audience;
    if Sends(t) {
      SentElsewhere(f, t, v, u);
    }
  }

  lemma SentElsewhere(f: Feed, t: Task, v: int, u: int)
    requires Linked(f) && Grounded(t, |f.sessions|) && Sends(t) && !Concerns(f, t, v, u)
    ensures var f' := Performed(f, t); SamePlaces(f, f', v, u) && SameRead(f, f', v, u)
    ensures var next := Following(f, t); next.Some? ==> !Concerns(Performed(f, t), next.value, v, u)
  {
    hide Fold, Frames, Shows, Audience, EntryOf, MaskUser;
  }

  /** A task leaves another to make good what it owes, or nothing is owed. */
  ghost predicate Passes(f': Feed, next: Option<Task>, v: int, u: int) {
    if next.Some? && Concerns(f', next.value, v, u) then Holds(f', next.value, v, u) else Settled(f', v, u)
  }

  lemma SentPasses(f: Feed, t: Task, v: int, u: int)
    requires Linked(f) && Grounded(t, |f.sessions|) && Sends(t) && Concerns(f, t, v, u) && Holds(f, t, v, u)
    ensures SamePlaces(f, Performed(f, t), v, u) && Passes(Performed(f, t), Following(f, t), v, u)
  {
    if IsLive(f, v) { StaysLive(f, v); }
    hide Fold, Frames, Shows, Audience;
    if t.TellAbsent? || t.TellDeparture? {
      hide EntryOf;
    } else {
      hide MaskUser;
      SessionSent(f, t, v, u);
    }
  }

  lemma SessionSent(f: Feed, t: Task, v: int, u: int)
    requires Linked(f) && Grounded(t, |f.sessions|) && (t.Announce? || t.TellChange? || t.TellMember?)
    requires Concerns(f, t, v, u) && Holds(f, t, v, u)
    requires IsLive(f, v) ==> f.live[v] in Audience(f)
    ensures SamePlaces(f, Performed(f, t), v, u) && Passes(Performed(f, t), Following(f, t), v, u)
  {
    hide Fold, Frames, Shows, Audience;
  }

  lemma SnapshotPasses(f: Feed, n: nat, v: int, u: int)
    requires Linked(f) && n < |f.sessions| && Concerns(f, MakeSnapshot(n), v, u) && Synced(f, u)
    ensures var f' := Performed(f, MakeSnapshot(n));
      SamePlaces(f, f', v, u) && Passes(f', Following(f, MakeSnapshot(n)), v, u)
  {
    SnapshotReads(f, v, u);
    hide Shows, MembersNow, EntryOf, MaskUser;
  }

  lemma PerformedPasses(f: Feed, t: Task, v: int, u: int)
    requires Linked(f) && Grounded(t, |f.sessions|) && !t.Join? && !t.Leave? && Concerns(f, t, v, u)
    requires Holds(f, t, v, u) && !(t.Tell? && t.left != {})
    ensures SamePlaces(f, Performed(f, t), v, u) && Passes(Performed(f, t), Following(f, t), v, u)
  {
    if Sends(t) {
      SentPasses(f, t, v, u);
    } else if t.MakeSnapshot? {
      SnapshotPasses(f, t.session, v, u);
    } else {
      hide Fold, Frames, Shows, MembersNow, Audience;
    }
  }

  /** Once a task that concerned them is taken off the list nothing on it does. */
  lemma RestQuiet(f: Feed, f': Feed, i: nat, v: int, u: int)
    requires Sound(f) && InTurn(f, v, u) && i < |f.tasks| && Concerns(f, f.tasks[i], v, u)
    requires SamePlaces(f, f', v, u)
    ensures forall x :: x in Collections.Without(f.tasks, i) ==> !Concerns(f', x, v, u)
  {
    hide Concerns, Grounded, SamePlaces;
    forall x | x in Collections.Without(f.tasks, i)
      ensures !Concerns(f', x, v, u)
    {
      var j :| 0 <= j < |f.tasks| && f.tasks[j] == x && j != i;
      ConcernsAlike(f, f', x, v, u);
    }
  }

  lemma Untimed(f: Feed, clock: nat, v: int, u: int)
    requires Sound(f) && Owes(f, v, u)
    ensures Owes(f.(clock := clock), v, u)
  {
    hide Concerns, Holds, Settled, Owes, Fold, Frames, Shows;
    ElsewhereKept(f, f.(clock := clock), v, u);
  }

  /** What concerned nobody else's being shown is passed on or made good. */
  lemma ConcernPassed(f: Feed, i: nat, v: int, u: int)
    requires Sound(f) && Owes(f, v, u) && InTurn(f, v, u) && i < |f.tasks|
    requires var t := f.tasks[i]; !t.Join? && !t.Leave? && !(t.Tell? && t.left != {}) && Concerns(f, t, v, u)
    ensures Owes(Performed(f.(tasks := Collections.Without(f.tasks, i)), f.tasks[i]), v, u)
  {
    var t, f0 := f.tasks[i], f.(tasks := Collections.Without(f.tasks, i));
    var f1, next := Performed(f0, t), Following(f0, t);
    assert t in f.tasks;
    assert Concerns(f0, t, v, u) && Holds(f0, t, v, u) by { hide WordTo, Fold, Frames, Shows, Telling; }
    hide Performed, Following, Concerns, Holds, Settled;
    PerformedTasks(f0, t);
    PerformedPasses(f0, t, v, u);
    RestQuiet(f, f1, i, v, u);
  }

  lemma ConcernElsewhere(f: Feed, i: nat, v: int, u: int)
    requires Sound(f) && Owes(f, v, u) && i < |f.tasks|
    requires var t := f.tasks[i]; !t.Join? && !t.Leave? && !Concerns(f, t, v, u)
    ensures Owes(Performed(f.(tasks := Collections.Without(f.tasks, i)), f.tasks[i]), v, u)
  {
    var t, f0 := f.tasks[i], f.(tasks := Collections.Without(f.tasks, i));
    var f1, next := Performed(f0, t), Following(f0, t);
    assert t in f.tasks;
    assert !Concerns(f0, t, v, u) by { hide WordTo; }
    PerformedTasks(f0, t);
    PerformedElsewhere(f0, t, v, u);
    assert SamePlaces(f, f1, v, u) && SameRead(f, f1, v, u) by { hide Performed, Fold, Frames, Shows; }
    hide Performed, Following, Concerns, Holds, Settled, Owes, SamePlaces, SameRead;
    forall x | x in f.tasks && Concerns(f, x, v, u)
      ensures x in f1.tasks
    {
      Taken(f.tasks, i, x);
    }
    ElsewhereKept(f, f1, v, u);
  }

  // --- joining --------------------------------------------------------------

  /** Unless their row is being set, what a user's session believes is what is stored. */
  lemma SyncedUnlessSetting(f: Feed, v: int, u: int)
    requires Owes(f, v, u)
    requires forall t :: t in f.tasks && Concerns(f, t, v, u) ==> !t.Find? && !t.SetRow?
    ensures Synced(f, u)
  {
    if !Quiet(f, v, u) {
      var t :| t in f.tasks && Concerns(f, t, v, u);
      assert Holds(f, t, v, u);
      hide Agrees, WordTo, Telling;
    }
  }

  lemma OneTurn(f: Feed, x: Task, y: Task, v: int, u: int)
    requires InTurn(f, v, u) && x in f.tasks && y in f.tasks && Concerns(f, x, v, u) && Concerns(f, y, v, u)
    ensures x == y
  {
    hide Concerns;
  }

  lemma SubjectJoins(f: Feed, row: Profile, v: int, u: int)
    requires Linked(f) && Holds(f, Join(u, row), v, u)
    ensures var f1, n := Performed(f, Join(u, row)), |f.sessions|;
      && (v == u ==> Concerns(f1, MakeSnapshot(n), v, u) && Holds(f1, MakeSnapshot(n), v, u))
      && (v != u ==> Concerns(f1, Announce(n), v, u) && Holds(f1, Announce(n), v, u))
  {
    hide Fold, Frames, Shows;
  }

  lemma ViewerJoins(f: Feed, i: nat, row: Profile, v: int, u: int)
    requires Sound(f) && Owes(f, v, u) && i < |f.tasks| && f.tasks[i] == Join(v, row) && v != u
    requires var f1 := Performed(f.(tasks := Collections.Without(f.tasks, i)), f.tasks[i]); InTurn(f1, v, u)
    ensures Synced(f, u)
  {
    hide InTurn;
    var f1 := Performed(f.(tasks := Collections.Without(f.tasks, i)), f.tasks[i]);
    var m := MakeSnapshot(|f.sessions|);
    assert m in f1.tasks && Concerns(f1, m, v, u);
    forall t | t in f.tasks && Concerns(f, t, v, u)
      ensures !t.Find? && !t.SetRow?
    {
      if t.Find? || t.SetRow? {
        Taken(f.tasks, i, t);
        assert t in f1.tasks && Concerns(f1, t, v, u);
        hide Concerns, Performed;
        OneTurn(f1, m, t, v, u);
      }
    }
    hide Concerns, Performed, Synced;
    SyncedUnlessSetting(f, v, u);
  }

  lemma JoinOwes(f: Feed, i: nat, v: int, u: int)
    requires Sound(f) && Owes(f, v, u) && i < |f.tasks| && f.tasks[i].Join?
    requires InTurn(Performed(f.(tasks := Collections.Without(f.tasks, i)), f.tasks[i]), v, u)
    ensures Owes(Performed(f.(tasks := Collections.Without(f.tasks, i)), f.tasks[i]), v, u)
  {
    var t, f0, n := f.tasks[i], f.(tasks := Collections.Without(f.tasks, i)), |f.sessions|;
    var f1 := Performed(f0, t);
    assert f1.tasks == f0.tasks + [MakeSnapshot(n), Announce(n)];
    assert MakeSnapshot(n) in f1.tasks && Announce(n) in f1.tasks;
    if t.user == u {
      assert t in f.tasks && Concerns(f, t, v, u);
      assert Holds(f0, t, v, u) by { hide Fold, Frames, Shows; }
      SubjectJoins(f0, t.row, v, u);
      hide Concerns, Holds, Performed, Owes, InTurn;
      if v == u { TurnTaken(f1, MakeSnapshot(n), v, u); } else { TurnTaken(f1, Announce(n), v, u); }
    } else if t.user == v {
      ViewerJoins(f, i, t.row, v, u);
      assert Concerns(f1, MakeSnapshot(n), v, u) && Holds(f1, MakeSnapshot(n), v, u);
      hide Concerns, Holds, Performed, Owes, InTurn;
      TurnTaken(f1, MakeSnapshot(n), v, u);
    } else {
      StrangerJoins(f, i, v, u);
    }
  }

  lemma StrangerJoins(f: Feed, i: nat, v: int, u: int)
    requires Sound(f) && Owes(f, v, u) && i < |f.tasks| && f.tasks[i].Join?
    requires f.tasks[i].user != u && f.tasks[i].user != v
    ensures Owes(Performed(f.(tasks := Collections.Without(f.tasks, i)), f.tasks[i]), v, u)
  {
    var t, f0, n := f.tasks[i], f.(tasks := Collections.Without(f.tasks, i)), |f.sessions|;
    var f1 := Performed(f0, t);
    assert f1.tasks == f0.tasks + [MakeSnapshot(n), Announce(n)];
    assert !Concerns(f1, MakeSnapshot(n), v, u) && !Concerns(f1, Announce(n), v, u) && !Concerns(f, t, v, u);
    assert SamePlaces(f, f1, v, u) && SameRead(f, f1, v, u) by { hide Fold, Frames, Shows; }
    hide Performed, Concerns, Holds, Settled, Owes, SamePlaces, SameRead;
    forall x | x in f.tasks && Concerns(f, x, v, u)
      ensures x in f1.tasks
    {
      Taken(f.tasks, i, x);
    }
    ElsewhereKept(f, f1, v, u);
  }

  // --- leaving --------------------------------------------------------------

  /** A departure of the user with nothing else under way leaves them away, and their going untold. */
  lemma SubjectLeaves(f: Feed, i: nat, v: int, u: int)
    requires Sound(f) && Owes(f, v, u) && i < |f.tasks| && f.tasks[i].Leave?
    requires var f1 := Performed(f.(tasks := Collections.Without(f.tasks, i)), f.tasks[i]); InTurn(f1, v, u)
    requires Now(f, f.tasks[i].session, u)
    ensures Owes(Performed(f.(tasks := Collections.Without(f.tasks, i)), f.tasks[i]), v, u)
  {
    var t, f0 := f.tasks[i], f.(tasks := Collections.Without(f.tasks, i));
    var f1, t1 := Performed(f0, t), TellDeparture(u, t.status);
    assert t in f.tasks && Holds(f, t, v, u);
    assert f1.tasks == f0.tasks + [t1] && t1 in f1.tasks;
    assert Concerns(f1, t1, v, u) && Holds(f1, t1, v, u) by { hide Fold, Frames, Shows; }
    hide Concerns, Holds, Performed, Owes, InTurn;
    TurnTaken(f1, t1, v, u);
  }

  /** A session another one took the place of ends when its user has left again. */
  lemma DisplacedLeaves(f: Feed, i: nat, v: int, u: int)
    requires Sound(f) && Owes(f, v, u) && i < |f.tasks| && f.tasks[i].Leave?
    requires var f1 := Performed(f.(tasks := Collections.Without(f.tasks, i)), f.tasks[i]); InTurn(f1, v, u)
    requires Belongs(f, f.tasks[i].session, u) && u !in f.live
    ensures Owes(Performed(f.(tasks := Collections.Without(f.tasks, i)), f.tasks[i]), v, u)
  {
    var t, f0 := f.tasks[i], f.(tasks := Collections.Without(f.tasks, i));
    var f1, t1 := Performed(f0, t), TellDeparture(u, t.status);
    assert f1 == f0.(tasks := f0.tasks + [t1]) && t1 in f1.tasks;
    assert !Concerns(f, t, v, u) && Concerns(f1, t1, v, u) && SamePlaces(f, f1, v, u);
    forall x | x in f.tasks && Concerns(f, x, v, u)
      ensures x in f0.tasks
    {
      hide Concerns;
      Taken(f.tasks, i, x);
    }
    BegunQuiet(f, f1, f0.tasks, t1, v, u);
    assert Holds(f1, t1, v, u) by { hide Fold, Frames, Shows; }
    hide Concerns, Holds, Performed, Owes, InTurn;
    TurnTaken(f1, t1, v, u);
  }

  /** A viewer who leaves has nothing left to be told. */
  lemma ViewerLeaves(f: Feed, i: nat, v: int, u: int)
    requires Sound(f) && Owes(f, v, u) && i < |f.tasks| && f.tasks[i].Leave?
    requires Now(f, f.tasks[i].session, v) && v != u
    ensures Owes(Performed(f.(tasks := Collections.Without(f.tasks, i)), f.tasks[i]), v, u)
  {
    var t, f0 := f.tasks[i], f.(tasks := Collections.Without(f.tasks, i));
    var f1, t1 := Performed(f0, t), TellDeparture(v, t.status);
    assert f1 == f.(live := f.live - {v}, tasks := f0.tasks + [t1]);
    assert !Concerns(f1, t1, v, u) && !Concerns(f, t, v, u);
    forall x | x in f1.tasks && Concerns(f1, x, v, u)
      ensures Holds(f1, x, v, u)
    {
      assert x in f.tasks && Concerns(f, x, v, u) && Holds(f, x, v, u) by { hide Holds; }
      hide Fold, Frames, Shows, Telling, EntryOf;
    }
    forall x | x in f.tasks && Concerns(f, x, v, u) && (x.Find? || x.SetRow?)
      ensures x in f1.tasks && Concerns(f1, x, v, u)
    {
      Taken(f.tasks, i, x);
    }
    hide Concerns, Holds;
    if Quiet(f1, v, u) {
      SyncedUnlessSetting(f, v, u);
    }
  }

  lemma StrangerLeaves(f: Feed, i: nat, v: int, u: int)
    requires Sound(f) && Owes(f, v, u) && i < |f.tasks| && f.tasks[i].Leave?
    requires !Now(f, f.tasks[i].session, u) && !Now(f, f.tasks[i].session, v)
    requires Belongs(f, f.tasks[i].session, u) ==> u in f.live
    ensures Owes(Performed(f.(tasks := Collections.Without(f.tasks, i)), f.tasks[i]), v, u)
  {
    var t, f0 := f.tasks[i], f.(tasks := Collections.Without(f.tasks, i));
    assert t in f.tasks && Grounded(t, |f.sessions|);
    var f1, t1 := Performed(f0, t), TellDeparture(f.sessions[t.session].user, t.status);
    assert f1.tasks == f0.tasks + [t1];
    assert !Concerns(f1, t1, v, u) && !Concerns(f, t, v, u);
    assert SamePlaces(f, f1, v, u) && SameRead(f, f1, v, u) by { hide Fold, Frames, Shows; }
    hide Performed, Concerns, Holds, Settled, Owes, SamePlaces, SameRead;
    forall x | x in f.tasks && Concerns(f, x, v, u)
      ensures x in f1.tasks
    {
      Taken(f.tasks, i, x);
    }
    ElsewhereKept(f, f1, v, u);
  }

  lemma LeaveOwes(f: Feed, i: nat, v: int, u: int)
    requires Sound(f) && Owes(f, v, u) && i < |f.tasks| && f.tasks[i].Leave?
    requires InTurn(Performed(f.(tasks := Collections.Without(f.tasks, i)), f.tasks[i]), v, u)
    ensures Owes(Performed(f.(tasks := Collections.Without(f.tasks, i)), f.tasks[i]), v, u)
  {
    var n := f.tasks[i].session;
    hide Owes, InTurn, Performed;
    if Now(f, n, u) {
      SubjectLeaves(f, i, v, u);
    } else if Now(f, n, v) {
      ViewerLeaves(f, i, v, u);
    } else if Belongs(f, n, u) && u !in f.live {
      DisplacedLeaves(f, i, v, u);
    } else {
      StrangerLeaves(f, i, v, u);
    }
  }

  // --- delivering -----------------------------------------------------------

  lemma QueuedShows(out: seq<Posted>, frame: Frame, origin: Origin, u: int)
    ensures Shows(Fold(Frames(out + [Posted(frame, origin)])), u) ==
      if IsAbout(frame, u) then Shown(frame, u) else Shows(Fold(Frames(out)), u)
  {
    var out' := out + [Posted(frame, origin)];
    assert Frames(out')[..|out|] == Frames(out);
    assert Frames(out')[|out|] == frame && |Frames(out')| == |out| + 1;
  }

  /** The word they were owed makes the viewer right about the user. */
  lemma DeliverMakesGood(f: Feed, i: nat, n: nat, v: int, u: int)
    requires Sound(f) && Owes(f, v, u) && InTurn(f, v, u) && PresenceRaces.Enabled(f, Deliver(i, n))
    requires Concerns(f, f.tasks[i], v, u) && f.live[v] == n
    ensures Owes(Acted(f, Deliver(i, n)), v, u)
  {
    var t, f' := f.tasks[i], Acted(f, Deliver(i, n));
    assert t in f.tasks && Holds(f, t, v, u);
    var frame := WordTo(t.speech, v).frame;
    QueuedShows(f.sessions[n].out, frame, t.origin, u);
    assert SamePlaces(f, f', v, u) by { hide Fold, Frames, Shows, WordTo; }
    assert f'.tasks == f.tasks[i := t.(left := t.left - {n})];
    assert OutOf(f', v) == f.sessions[n].out + [Posted(frame, t.origin)];
    assert Settled(f', v, u) by { hide Fold, Frames, Shows, WordTo, EntryOf; }
    forall j | 0 <= j < |f'.tasks|
      ensures !Concerns(f', f'.tasks[j], v, u)
    {
      hide Fold, Frames, Shows, WordTo, Acted, Settled;
      if j != i {
        assert Grounded(f.tasks[j], |f.sessions|);
        ConcernsAlike(f, f', f.tasks[j], v, u);
      }
    }
  }

  /** One that they were not, or that goes to somebody else, leaves them as they are. */
  lemma DeliverElsewhere(f: Feed, i: nat, n: nat, v: int, u: int)
    requires Sound(f) && Owes(f, v, u) && PresenceRaces.Enabled(f, Deliver(i, n))
    requires Now(f, n, v) ==> !Concerns(f, f.tasks[i], v, u)
    ensures Owes(Acted(f, Deliver(i, n)), v, u)
  {
    var t, f' := f.tasks[i], Acted(f, Deliver(i, n));
    var w := WordTo(t.speech, f.sessions[n].user);
    if w.Say? { QueuedShows(f.sessions[n].out, w.frame, t.origin, u); }
    assert SamePlaces(f, f', v, u) && SameRead(f, f', v, u) by { hide Fold, Frames, Shows, WordTo; }
    assert f'.tasks == f.tasks[i := t.(left := t.left - {n})];
    hide Acted, SamePlaces, SameRead, Settled;
    ShorterKept(f, f', i, n, v, u);
  }

  /** One viewer fewer to tell is nothing to those not being told. */
  lemma ShorterKept(f: Feed, f': Feed, i: nat, n: nat, v: int, u: int)
    requires Sound(f) && Owes(f, v, u) && SamePlaces(f, f', v, u) && SameRead(f, f', v, u)
    requires i < |f.tasks| && f.tasks[i].Tell? && f'.tasks == f.tasks[i := f.tasks[i].(left := f.tasks[i].left - {n})]
    requires Now(f, n, v) ==> !Concerns(f, f.tasks[i], v, u)
    ensures Owes(f', v, u)
  {
    forall j | 0 <= j < |f.tasks|
      ensures Concerns(f', f'.tasks[j], v, u) <==> Concerns(f, f.tasks[j], v, u)
      ensures Holds(f, f.tasks[j], v, u) ==> Holds(f', f'.tasks[j], v, u)
    {
      assert Grounded(f.tasks[j], |f.sessions|);
      ConcernsAlike(f, f', f.tasks[j], v, u);
      HoldsAlike(f, f', f.tasks[j], v, u);
      hide Fold, Frames, Shows, WordTo, SameRead, Agrees, Synced;
    }
    SettledAlike(f, f', v, u);
    hide Concerns, Holds, Settled, Grounded;
    assert Quiet(f', v, u) ==> Quiet(f, v, u) by {
      if Quiet(f', v, u) {
        forall x | x in f.tasks
          ensures !Concerns(f, x, v, u)
        {
          var j :| 0 <= j < |f.tasks| && f.tasks[j] == x;
          assert f'.tasks[j] in f'.tasks;
        }
      }
    }
  }

  // --- every step -----------------------------------------------------------

  lemma PerformedSound(f: Feed, t: Task)
    requires Sound(f) && Grounded(t, |f.sessions|)
    ensures Sound(Performed(f, t))
  {
    hide MembersNow, EntryOf;
  }

  lemma StepSound(f: Feed, a: PresenceRaces.Action)
    requires Sound(f) && PresenceRaces.Enabled(f, a)
    ensures Sound(After(f, a))
  {
    if a.Perform? {
      var t, f0 := f.tasks[a.at], f.(tasks := Collections.Without(f.tasks, a.at));
      assert t in f.tasks && Sound(f0);
      PerformedSound(f0, t);
      hide Performed;
    } else if a.Deliver? {
      var t := f.tasks[a.at];
      assert t in f.tasks && Grounded(t.(left := t.left - {a.session}), |f.sessions|);
      hide WordTo, Grounded;
    } else {
      hide SameActivity;
      BegunTasks(f, a, 0, 0);
      var t := FirstTask(f, a);
      assert t.Some? ==> Grounded(t.value, |f.sessions|);
      assert Linked(After(f, a)) && |After(f, a).sessions| == |f.sessions|;
      hide Grounded, After, FirstTask;
    }
  }

  lemma SameTurns(f: Feed, clock: nat, v: int, u: int)
    requires InTurn(f.(clock := clock), v, u)
    ensures InTurn(f, v, u)
  {
    var f' := f.(clock := clock);
    forall t
      ensures Concerns(f', t, v, u) <==> Concerns(f, t, v, u)
    {
      hide WordTo;
    }
    hide Concerns;
  }

  lemma ActedOwes(f: Feed, a: PresenceRaces.Action, v: int, u: int)
    requires Sound(f) && Owes(f, v, u) && PresenceRaces.Enabled(f, a) && !Begins(a)
    requires InTurn(f, v, u) && InTurn(Acted(f, a), v, u)
    ensures Owes(Acted(f, a), v, u)
  {
    match a
    case Perform(i) =>
      hide Owes, InTurn, Concerns, Performed;
      if f.tasks[i].Join? {
        JoinOwes(f, i, v, u);
      } else if f.tasks[i].Leave? {
        LeaveOwes(f, i, v, u);
      } else if Concerns(f, f.tasks[i], v, u) {
        ConcernPassed(f, i, v, u);
      } else {
        ConcernElsewhere(f, i, v, u);
      }
    case Deliver(i, n) =>
      hide Owes, InTurn, Acted, WordTo;
      if Concerns(f, f.tasks[i], v, u) && Now(f, n, v) {
        DeliverMakesGood(f, i, n, v, u);
      } else {
        DeliverElsewhere(f, i, n, v, u);
      }
    case _ =>
  }

  lemma StepOwes(f: Feed, a: PresenceRaces.Action, v: int, u: int)
    requires Sound(f) && Owes(f, v, u) && PresenceRaces.Enabled(f, a) && Orderly(f, a, u)
    requires InTurn(f, v, u) && InTurn(After(f, a), v, u)
    ensures Owes(After(f, a), v, u)
  {
    hide Owes, InTurn, Acted, Sound, Orderly, PresenceRaces.Enabled, Begins;
    if Begins(a) {
      BegunOwes(f, a, v, u);
    } else {
      StepSound(f, a);
      SameTurns(Acted(f, a), f.clock + 1, v, u);
      ActedOwes(f, a, v, u);
      assert Sound(Acted(f, a)) by { hide Sound; SoundUntimed(Acted(f, a), f.clock + 1); }
      Untimed(Acted(f, a), f.clock + 1, v, u);
    }
  }

  lemma SoundUntimed(f: Feed, clock: nat)
    requires Sound(f.(clock := clock))
    ensures Sound(f)
  {}

  lemma {:induction false} RunOwes(
      feeds: seq<Feed>, actions: seq<PresenceRaces.Action>, k: nat, v: int, u: int)
    requires PresenceRaces.IsRun(feeds, actions) && Start(feeds[0]) && k < |feeds|
    requires forall j :: 0 <= j <= k ==> InTurn(feeds[j], v, u)
    requires forall j :: 0 <= j < k ==> Orderly(feeds[j], actions[j], u)
    ensures Sound(feeds[k]) && Owes(feeds[k], v, u)
  {
    if k == 0 {
      assert feeds[0].tasks == [] && Sound(feeds[0]);
    } else {
      RunOwes(feeds, actions, k - 1, v, u);
      assert PresenceRaces.StepAt(feeds, actions, k - 1);
      hide Owes, InTurn, After, Sound, Orderly, PresenceRaces.Enabled, PresenceRaces.IsRun;
      StepSound(feeds[k - 1], actions[k - 1]);
      StepOwes(feeds[k - 1], actions[k - 1], v, u);
    }
  }

  /**
    However handlers interleave otherwise, as long as at most one thing under way
    ever concerns how a viewer is shown a user, their frames are right about that
    user whenever nothing under way does.
   */
  lemma {:induction false} RightInTurn(
      feeds: seq<Feed>, actions: seq<PresenceRaces.Action>, k: nat, v: int, u: int)
    requires PresenceRaces.IsRun(feeds, actions) && Start(feeds[0]) && k < |feeds|
    requires forall j :: 0 <= j <= k ==> InTurn(feeds[j], v, u)
    requires forall j :: 0 <= j < k ==> Orderly(feeds[j], actions[j], u)
    requires Quiet(feeds[k], v, u) && v in feeds[k].live
    ensures Right(feeds[k], v, u)
  {
    RunOwes(feeds, actions, k, v, u);
    SnapshotReads(feeds[k], v, u);
    hide PresenceRaces.IsRun, InTurn, Orderly, Quiet, Concerns, Holds, Synced, MembersNow, SeenNow, Fold, Frames, Shows;
  }

  // --- handlers taking turns ------------------------------------------------

  /** The snapshot an arrival is answered with, and what tells others of it. */
  predicate ForArrival(t: Task, n: nat) {
    t == MakeSnapshot(n) || (t.Tell? && t.speech.OfEverybody? && t.left <= {n})
  }

  predicate OfArriving(f: Feed, t: Task, n: nat) {
    n < |f.sessions| &&
    (t == Announce(n) || (t.Tell? && t.speech.OfArrival? && t.speech.user == f.sessions[n].user))
  }

  ghost predicate BothOf(f: Feed, n: nat) {
    |f.tasks| == 2 &&
    ((ForArrival(f.tasks[0], n) && OfArriving(f, f.tasks[1], n))
    || (ForArrival(f.tasks[1], n) && OfArriving(f, f.tasks[0], n)))
  }

  /** What one handler may leave under way. */
  ghost predicate OneHandler(f: Feed) {
    |f.tasks| <= 1 || exists n: nat :: BothOf(f, n)
  }

  lemma OneHandlerInTurn(f: Feed, v: int, u: int)
    requires Linked(f) && OneHandler(f)
    ensures InTurn(f, v, u)
  {
    if |f.tasks| > 1 {
      var n: nat :| BothOf(f, n);
      assert f.tasks == [f.tasks[0], f.tasks[1]];
      hide Fold, Frames, Shows, MaskUser;
    }
  }

  /** Of the two, one is gone on with and the other waits. */
  lemma EitherOfBoth(f: Feed, n: nat, i: nat)
    requires Sound(f) && BothOf(f, n) && i < 2
    ensures OneHandler(Performed(f.(tasks := Collections.Without(f.tasks, i)), f.tasks[i]))
  {
    var t, x, f0 := f.tasks[i], f.tasks[1 - i], f.(tasks := Collections.Without(f.tasks, i));
    assert t in f.tasks && Grounded(t, |f.sessions|) && f0.tasks == [x];
    PerformedTasks(f0, t);
    var f' := Performed(f0, t);
    assert f'.sessions == f.sessions;
    if !t.Tell? {
      assert t.MakeSnapshot? ==> Following(f0, t).value.left <= {n};
      assert BothOf(f', n) by { hide MembersNow, Audience; }
    }
  }

  lemma OneHandlerActs(f: Feed, a: PresenceRaces.Action)
    requires Sound(f) && OneHandler(f) && PresenceRaces.Enabled(f, a) && (Begins(a) ==> f.tasks == [])
    ensures OneHandler(Acted(f, a))
  {
    match a
    case Perform(i) =>
      if |f.tasks| > 1 {
        var n: nat :| BothOf(f, n);
        hide OneHandler, BothOf, Performed;
        EitherOfBoth(f, n, i);
      } else {
        var t, f0 := f.tasks[0], f.(tasks := Collections.Without(f.tasks, i));
        assert t in f.tasks && Grounded(t, |f.sessions|) && f0.tasks == [];
        if t.Join? {
          assert BothOf(Performed(f0, t), |f.sessions|);
        } else {
          hide Performed;
          PerformedTasks(f0, t);
        }
      }
    case Deliver(i, m) =>
      hide WordTo;
      if |f.tasks| > 1 {
        var n: nat :| BothOf(f, n);
        assert BothOf(Acted(f, a), n);
      }
    case _ =>
      hide SameActivity;
  }

  lemma OneHandlerUntimed(f: Feed, clock: nat)
    requires OneHandler(f)
    ensures OneHandler(f.(clock := clock))
  {
    if |f.tasks| > 1 {
      var n: nat :| BothOf(f, n);
      assert BothOf(f.(clock := clock), n);
    }
  }

  lemma {:induction false} RunOneHandler(feeds: seq<Feed>, actions: seq<PresenceRaces.Action>, k: nat)
    requires PresenceRaces.IsRun(feeds, actions) && Start(feeds[0]) && k < |feeds|
    requires forall j :: 0 <= j < k ==> Begins(actions[j]) ==> feeds[j].tasks == []
    ensures Sound(feeds[k]) && OneHandler(feeds[k])
  {
    if k > 0 {
      RunOneHandler(feeds, actions, k - 1);
      assert PresenceRaces.StepAt(feeds, actions, k - 1);
      hide Acted, Sound, PresenceRaces.Enabled, PresenceRaces.IsRun;
      StepSound(feeds[k - 1], actions[k - 1]);
      OneHandlerActs(feeds[k - 1], actions[k - 1]);
      hide OneHandler;
      OneHandlerUntimed(Acted(feeds[k - 1], actions[k - 1]), feeds[k - 1].clock + 1);
    }
  }

  /**
    So where handlers take turns, each begun when nothing is under way, every
    viewer's frames show each user as a snapshot would at every moment between two.
   */
  lemma {:induction false} TakingTurns(
      feeds: seq<Feed>, actions: seq<PresenceRaces.Action>, k: nat, v: int, u: int)
    requires PresenceRaces.IsRun(feeds, actions) && Start(feeds[0]) && k < |feeds|
    requires forall j :: 0 <= j < k ==> Begins(actions[j]) ==> feeds[j].tasks == []
    requires forall j :: 0 <= j < k ==> Orderly(feeds[j], actions[j], u)
    requires feeds[k].tasks == [] && v in feeds[k].live
    ensures Right(feeds[k], v, u)
  {
    forall j | 0 <= j <= k
      ensures InTurn(feeds[j], v, u)
    {
      RunOneHandler(feeds, actions, j);
      hide InTurn, OneHandler, Begins;
      OneHandlerInTurn(feeds[j], v, u);
    }
    hide InTurn, Begins, Orderly, Right, PresenceRaces.IsRun;
    RightInTurn(feeds, actions, k, v, u);
  }

  // --- a snapshot overtaken -------------------------------------------------

  ghost predicate Reached(f: Feed) {
    exists feeds, actions :: PresenceRaces.IsRun(feeds, actions) && Start(feeds[0]) && feeds[|actions|] == f
  }

  lemma ReachedStart(f: Feed)
    requires Start(f)
    ensures Reached(f)
  {
    assert PresenceRaces.IsRun([f], []) && [f][0] == f;
  }

  lemma ReachedNext(f: Feed, a: PresenceRaces.Action)
    requires Reached(f) && PresenceRaces.Enabled(f, a)
    ensures Reached(After(f, a))
  {
    var feeds, actions :| PresenceRaces.IsRun(feeds, actions) && Start(feeds[0]) && feeds[|actions|] == f;
    hide After, PresenceRaces.Enabled, Start;
    var feeds', actions' := feeds + [After(f, a)], actions + [a];
    forall k: nat | k < |actions'|
      ensures PresenceRaces.StepAt(feeds', actions', k)
    {
      if k < |actions| { assert PresenceRaces.StepAt(feeds, actions, k); }
    }
    assert PresenceRaces.IsRun(feeds', actions') && feeds'[0] == feeds[0] && feeds'[|actions'|] == After(f, a);
  }

  lemma Entered(f: Feed, u: int) returns (f': Feed)
    requires Reached(f) && u in f.stored && f.tasks == []
    ensures Reached(f') && f'.stored == f.stored && f'.live == f.live[u := |f.sessions|]
    ensures f'.sessions == f.sessions + [Session(u, f.stored[u], None, [], true)]
    ensures f'.tasks == [MakeSnapshot(|f.sessions|), Announce(|f.sessions|)]
  {
    hide Reached;
    var f1 := After(f, Load(u));
    ReachedNext(f, Load(u));
    assert f1.tasks == [Join(u, f.stored[u])];
    f' := After(f1, Perform(0));
    ReachedNext(f1, Perform(0));
  }

  lemma SnapshotRead(f: Feed, n: nat)
    requires n < |f.sessions|
    ensures var t := Following(f, MakeSnapshot(n)).value;
      t.Tell? && t.left == {n} && t.speech.OfEverybody? &&
      forall x :: Shows(t.speech.users, x) == SeenNow(f, f.sessions[n].user, x)
  {
    forall x { SnapshotReads(f, f.sessions[n].user, x); }
    hide MembersNow, SeenNow, Shows;
  }

  /** Somebody's authentication, as far as their snapshot being read. */
  lemma Joined(f: Feed, u: int) returns (f': Feed)
    requires Reached(f) && u in f.stored && f.tasks == []
    ensures var n := |f.sessions|;
      && Reached(f') && f'.stored == f.stored && f'.live == f.live[u := n]
      && f'.sessions == f.sessions + [Session(u, f.stored[u], None, [], true)]
      && |f'.tasks| == 2 && f'.tasks[0] == Announce(n)
      && f'.tasks[1].Tell? && f'.tasks[1].left == {n}
      && f'.tasks[1].speech.OfEverybody?
    ensures forall x :: Shows(f'.tasks[1].speech.users, x) == SeenNow(f', u, x)
  {
    var n := |f.sessions|;
    var f1 := Entered(f, u);
    var f0 := f1.(tasks := [Announce(n)]);
    assert Collections.Without(f1.tasks, 0) == f0.tasks;
    SnapshotRead(f0, n);
    var t := Following(f0, MakeSnapshot(n)).value;
    f' := f1.(tasks := [Announce(n), t], clock := f1.clock + 1);
    assert f' == After(f1, Perform(0)) by { hide MembersNow; }
    ReachedNext(f1, Perform(0));
    assert forall x :: SeenNow(f0, u, x) == SeenNow(f', u, x);
  }

  lemma OnlyOne(f: Feed, u: int)
    requires f.live == map[u := 0]
    ensures Audience(f) == {0}
  {
    assert u in f.live;
  }

  lemma BothOfThem(f: Feed, u: int, v: int)
    requires f.live == map[u := 0][v := 1] && u != v
    ensures Audience(f) == {0, 1}
  {
    assert u in f.live && v in f.live;
  }

  /** Somebody alone on the server, signed in and answered. */
  lemma SignedIn(f: Feed, u: int) returns (f': Feed)
    requires Start(f) && u in f.stored
    ensures Reached(f') && f'.stored == f.stored && f'.live == map[u := 0] && f'.tasks == []
    ensures |f'.sessions| == 1 && f'.sessions[0].(out := []) == Session(u, f.stored[u], None, [], true)
  {
    ReachedStart(f);
    var f1 := Joined(f, u);
    hide Reached, SeenNow;
    assert f1.sessions == [Session(u, f.stored[u], None, [], true)] && f1.live == map[u := 0];
    OnlyOne(f1, u);
    var f2 := After(f1, Perform(0));
    ReachedNext(f1, Perform(0));
    assert f2.tasks[0] == f1.tasks[1] && f2.tasks[1].Tell? && f2.tasks[1].left == {0};
    var f3 := Answered(f2);
    f' := Answered(f3);
  }

  /** The first telling, to one session, delivered and done with. */
  lemma Answered(f: Feed) returns (f': Feed)
    requires Reached(f) && |f.sessions| == 1 && f.tasks != [] && f.tasks[0].Tell? && f.tasks[0].left == {0}
    ensures Reached(f') && f'.stored == f.stored && f'.live == f.live && f'.tasks == f.tasks[1..]
    ensures |f'.sessions| == 1 && f'.sessions[0].(out := []) == f.sessions[0].(out := [])
  {
    hide Reached, WordTo;
    var f1 := After(f, Deliver(0, 0));
    ReachedNext(f, Deliver(0, 0));
    assert f1.tasks[0].left == {} && f1.tasks[1..] == f.tasks[1..];
    f' := After(f1, Perform(0));
    ReachedNext(f1, Perform(0));
  }

  ghost predicate TwoIn(f: Feed, u: int, v: int) {
    && |f.sessions| == 2 && u != v && f.live == map[u := 0][v := 1]
    && f.sessions[0].user == u && f.sessions[1].user == v && f.sessions[1].out == []
  }

  /** A change of profile as far as the session's believing it. */
  lemma ChangeMade(f: Feed, u: int, row: Profile, v: int) returns (f': Feed)
    requires Reached(f) && |f.tasks| == 2 && TwoIn(f, u, v) && u in f.stored
    ensures var was := Some(f.sessions[0].profile.status);
      Reached(f') && f'.tasks == f.tasks + [TellChange(0, was)] && f'.live == f.live
    ensures f'.sessions == f.sessions[0 := f.sessions[0].(profile := row)]
  {
    hide Reached, EntryOf;
    var f1 := After(f, Store(u, row));
    ReachedNext(f, Store(u, row));
    assert f1.tasks == f.tasks + [Find(u, row, true)];
    var f2 := After(f1, Perform(2));
    ReachedNext(f1, Perform(2));
    assert f2.tasks == f.tasks + [SetRow(0, Some(f.sessions[0].profile.status), row)];
    f' := After(f2, Perform(2));
    ReachedNext(f2, Perform(2));
  }

  /** And as far as the frame that tells of it being queued for one viewer. */
  lemma ChangeTold(f: Feed, u: int, row: Profile, v: int) returns (f': Feed)
    requires Reached(f) && |f.tasks| == 2 && TwoIn(f, u, v) && u in f.stored && !HidesPresence(row.status)
    ensures Reached(f') && |f'.tasks| == 3 && f'.tasks[..2] == f.tasks && f'.live == f.live
    ensures f'.tasks[2].Tell? && f'.tasks[2].left == {0}
    ensures |f'.sessions| == 2 && f'.sessions[0] == f.sessions[0].(profile := row)
    ensures f'.sessions[1].(out := []) == f.sessions[1]
  {
    var f1 := ChangeMade(f, u, row, v);
    hide Reached, EntryOf, MaskUser;
    var f2 := After(f1, Perform(2));
    ReachedNext(f1, Perform(2));
    BothOfThem(f1, u, v);
    assert f2.tasks[..2] == f.tasks && f2.tasks[2].left == {0, 1};
    f' := After(f2, Deliver(2, 1));
    ReachedNext(f2, Deliver(2, 1));
  }

  /**
    A snapshot read before somebody's change and queued after the frame that
    tells of it: the viewer goes on showing them as they were, with nothing left
    under way that would put it right.
   */
  lemma SnapshotOvertaken(f: Feed, u: int, v: int, row: Profile) returns (last: Feed)
    requires Start(f) && u in f.stored && v in f.stored && u != v
    requires !HidesPresence(f.stored[u].status) && !HidesPresence(row.status)
    requires (Status(row), row.custom) != (Status(f.stored[u]), f.stored[u].custom)
    ensures Reached(last) && u in last.live && v in last.live && Quiet(last, v, u)
    ensures Shows(MembersNow(last, v), u) == Entry(true, Status(row), row.custom, None)
    ensures Shows(Fold(Frames(OutOf(last, v))), u) == Entry(true, Status(f.stored[u]), f.stored[u].custom, None)
    ensures !Right(last, v, u)
  {
    var f1 := SignedIn(f, u);
    var f2 := Joined(f1, v);
    assert Shows(f2.tasks[1].speech.users, u) == SeenNow(f2, v, u);
    hide Reached, SeenNow;
    var f3 := ChangeTold(f2, u, row, v);
    last := After(f3, Deliver(1, 1));
    ReachedNext(f3, Deliver(1, 1));
  }
}