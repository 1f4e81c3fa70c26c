/**
  The presence feed with every handler taken apart, and others in between. Only
  frames that carry presence are followed.
 */
module PresenceRaces {
  import opened Wrappers
  import opened Collections
  import opened Presence

  /** What a broadcast tells, before it is put to one viewer or another. */
  datatype Speech =
    | OfEverybody(users: map<int, Entry>)
    | OfChange(was: string, user: int, entry: Entry)
    | OfMember(user: int, entry: Entry)
    | OfArrival(user: int, entry: Entry)
    | OfDeparture(user: int)

  /** What was looked at: everybody, one session, or nothing, since the user has none. */
  datatype Source = Everybody | Of(session: nat) | Absence

  datatype Origin = Origin(at: nat, source: Source)

  /** A queued frame, and the reading it was made from. */
  datatype Posted = Posted(frame: Frame, origin: Origin)

  /** A session keeps what it believes of its user after another one has taken its place. */
  datatype Session = Session(
    user: int, profile: Profile, activity: Option<Activity>, out: seq<Posted>, open: bool)

  /**
    What handlers have still to do. Joining, reading a snapshot and queueing it
    are separate moments, and so are setting a change, reading the view that
    tells of it, and queueing it for each viewer.
   */
  datatype Task =
    | Join(user: int, row: Profile)
    | MakeSnapshot(session: nat)
    | Announce(session: nat)
    | Find(user: int, row: Profile, noting: bool)
    | SetRow(session: nat, was: Option<string>, row: Profile)
    | TellChange(session: nat, was: Option<string>)
    | TellMember(session: nat)
    | TellAbsent(user: int)
    | Leave(session: nat, status: string)
    | TellDeparture(user: int, status: string)
    | Tell(speech: Speech, left: set<nat>, origin: Origin)

  datatype Feed = Feed(
    stored: map<int, Profile>, registered: set<int>, sessions: seq<Session>, live: map<int, nat>,
    tasks: seq<Task>, clock: nat)

  function WordTo(speech: Speech, viewer: int): Word {
    match speech
    case OfEverybody(users) => Say(Ready(users))
    case OfChange(was, u, e) => PresenceWord(was, u, e, viewer)
    case OfMember(u, e) => MemberWord(u, e, viewer)
    case OfArrival(u, e) => ArrivalWord(u, e, viewer)
    case OfDeparture(u) => Say(Disconnected(u))
  }

  // --- what there is to see -------------------------------------------------

  function EntryOf(x: Session): Entry {
    Entry(true, Status(x.profile), x.profile.custom, x.activity)
  }

  predicate IsLive(f: Feed, u: int) {
    u in f.live && f.live[u] < |f.sessions|
  }

  function ViewNow(f: Feed, u: int): Entry {
    if IsLive(f, u) then EntryOf(f.sessions[f.live[u]]) else AWAY
  }

  function SeenNow(f: Feed, viewer: int, u: int): Entry {
    MaskUser(viewer, u, ViewNow(f, u))
  }

  predicate ListedNow(f: Feed, viewer: int, u: int) {
    u in f.live ==> u == viewer || !HidesPresence(ViewNow(f, u).status) || u in f.registered
  }

  function MembersNow(f: Feed, viewer: int): map<int, Entry> {
    map u | u in f.live.Keys + f.registered && ListedNow(f, viewer, u) :: SeenNow(f, viewer, u)
  }

  function Audience(f: Feed): set<nat> {
    set u | u in f.live :: f.live[u]
  }

  // --- steps ----------------------------------------------------------------

  datatype Action =
    | Load(user: int)
    | Store(user: int, row: Profile)
    | Reread(user: int)
    | Report(session: nat, activity: Option<Activity>)
    | ChangeMember(user: int)
    | Resync(session: nat)
    | Close(session: nat)
    | Perform(at: nat)
    | Deliver(at: nat, session: nat)

  ghost predicate Enabled(f: Feed, a: Action) {
    match a
    case Load(u) => u in f.stored
    case Store(u, _) => u in f.stored
    case Reread(u) => u in f.stored
    case Report(n, _) => n < |f.sessions| && f.sessions[n].open
    case ChangeMember(_) => true
    case Resync(n) => n < |f.sessions|
    case Close(n) => n < |f.sessions| && f.sessions[n].open
    case Perform(i) => i < |f.tasks| && (f.tasks[i].Tell? ==> f.tasks[i].left == {})
    case Deliver(i, n) => i < |f.tasks| && f.tasks[i].Tell? && n in f.tasks[i].left && n < |f.sessions|
  }

  function Doing(f: Feed, more: seq<Task>): Feed {
    f.(tasks := f.tasks + more)
  }

  function Broadcast(f: Feed, speech: Speech, source: Source): Feed {
    Doing(f, [Tell(speech, Audience(f), Origin(f.clock, source))])
  }

  /** A view read off a session, whether or not it is still its user's. */
  function Telling(f: Feed, n: nat, was: Option<string>): Speech
    requires n < |f.sessions|
  {
    var e := EntryOf(f.sessions[n]);
    OfChange(if was.Some? then was.value else e.status, f.sessions[n].user, e)
  }

  /** What one task does, once it is off the list. */
  function Performed(f: Feed, t: Task): Feed {
    match t
    case Join(u, row) =>
      var n := |f.sessions|;
      Doing(f.(sessions := f.sessions + [Session(u, row, None, [], true)], live := f.live[u := n]),
            [MakeSnapshot(n), Announce(n)])
    case MakeSnapshot(n) =>
      if n >= |f.sessions| then f
      else Doing(f, [Tell(OfEverybody(MembersNow(f, f.sessions[n].user)), {n}, Origin(f.clock, Everybody))])
    case Announce(n) =>
      if n >= |f.sessions| then f
      else Broadcast(f, OfArrival(f.sessions[n].user, EntryOf(f.sessions[n])), Of(n))
    case Find(u, row, noting) =>
      if !IsLive(f, u) then if noting then Doing(f, [TellAbsent(u)]) else f
      else
        var n := f.live[u];
        Doing(f, [SetRow(n, if noting then Some(f.sessions[n].profile.status) else None, row)])
    case SetRow(n, was, row) =>
      if n >= |f.sessions| then f
      else Doing(f.(sessions := f.sessions[n := f.sessions[n].(profile := row)]), [TellChange(n, was)])
    case TellChange(n, was) => if n >= |f.sessions| then f else Broadcast(f, Telling(f, n, was), Of(n))
    case TellMember(n) =>
      if n >= |f.sessions| then f
      else Broadcast(f, OfMember(f.sessions[n].user, EntryOf(f.sessions[n])), Of(n))
    case TellAbsent(u) => Broadcast(f, OfMember(u, AWAY), Absence)
    case Leave(n, status) =>
      if n >= |f.sessions| then f
      else
        var u := f.sessions[n].user;
        Doing(if u in f.live && f.live[u] == n then f.(live := f.live - {u}) else f, [TellDeparture(u, status)])
    case TellDeparture(u, status) =>
      if u in f.live || HidesPresence(status) then f else Broadcast(f, OfDeparture(u), Absence)
    case Tell(_, _, _) => f
  }

  /** One viewer's queue takes what the broadcast says to them. */
  function Queued(f: Feed, n: nat, speech: Speech, origin: Origin): Feed
    requires n < |f.sessions|
  {
    match WordTo(speech, f.sessions[n].user)
    case Silent => f
    case Say(frame) =>
      f.(sessions := f.sessions[n := f.sessions[n].(out := f.sessions[n].out + [Posted(frame, origin)])])
  }

  ghost function Acted(f: Feed, a: Action): Feed
    requires Enabled(f, a)
  {
    match a
    case Load(u) => Doing(f, [Join(u, f.stored[u])])
    case Store(u, row) => Doing(f.(stored := f.stored[u := row]), [Find(u, row, true)])
    case Reread(u) => Doing(f, [Find(u, f.stored[u], false)])
    case Report(n, activity) =>
      if SameActivity(f.sessions[n].activity, activity) then f
      else
        Doing(f.(sessions := f.sessions[n := f.sessions[n].(activity := activity)]), [TellChange(n, None)])
    case ChangeMember(u) => Doing(f, [if IsLive(f, u) then TellMember(f.live[u]) else TellAbsent(u)])
    case Resync(n) => Doing(f, [MakeSnapshot(n)])
    case Close(n) =>
      Doing(f.(sessions := f.sessions[n := f.sessions[n].(open := false)]), [Leave(n, f.sessions[n].profile.status)])
    case Perform(i) => Performed(f.(tasks := Collections.Without(f.tasks, i)), f.tasks[i])
    case Deliver(i, n) =>
      var t := f.tasks[i];
      Queued(f.(tasks := f.tasks[i := t.(left := t.left - {n})]), n, t.speech, t.origin)
  }

  ghost function After(f: Feed, a: Action): Feed
    requires Enabled(f, a)
  {
    Acted(f, a).(clock := f.clock + 1)
  }

  ghost predicate StepAt(feeds: seq<Feed>, actions: seq<Action>, k: nat)
    requires k < |actions| == |feeds| - 1
  {
    Enabled(feeds[k], actions[k]) && feeds[k + 1] == After(feeds[k], actions[k])
  }

  ghost predicate IsRun(feeds: seq<Feed>, actions: seq<Action>) {
    |feeds| == |actions| + 1 && forall k: nat :: k < |actions| ==> StepAt(feeds, actions, k)
  }

  ghost predicate Start(f: Feed) {
    f.sessions == [] && f.live == map[] && f.tasks == [] && f.clock == 0
  }

  // --- what a viewer's frames show ------------------------------------------

  function Frames(out: seq<Posted>): seq<Frame> {
    seq(|out|, i requires 0 <= i < |out| => out[i].frame)
  }

  predicate IsAbout(f: Frame, u: int) {
    match f
    case Ready(_) => true
    case Connected(x, _) => x == u
    case Updated(x, _) => x == u
    case Disconnected(x) => x == u
    case Moved(_) => false
  }

  /** How a frame about a user shows them. */
  function Shown(f: Frame, u: int): Entry {
    match f
    case Ready(users) => Shows(users, u)
    case Connected(_, e) => e
    case Updated(_, e) => e
    case Disconnected(_) => AWAY
    case Moved(_) => AWAY
  }

  /** The last of the frames about a user; -1 if there is none. */
  function LastAbout(out: seq<Posted>, u: int): (i: int)
    ensures -1 <= i < |out| && (i >= 0 ==> IsAbout(out[i].frame, u))
    ensures forall j :: i < j < |out| ==> !IsAbout(out[j].frame, u)
  {
    if out == [] then -1
    else if IsAbout(out[|out| - 1].frame, u) then |out| - 1
    else LastAbout(out[..|out| - 1], u)
  }

  /** Folding the frames shows what the last one about the user said. */
  lemma {:induction false} FoldShowsLast(out: seq<Posted>, u: int)
    ensures var i := LastAbout(out, u);
      Shows(Fold(Frames(out)), u) == if i < 0 then AWAY else Shown(out[i].frame, u)
  {
    if out != [] {
      FoldShowsLast(out[..|out| - 1], u);
      assert Frames(out)[..|out| - 1] == Frames(out[..|out| - 1]);
    }
  }

  // --- readings -------------------------------------------------------------

  /** How what was looked at, at the moment it was, reads to a viewer. */
  function Reading(feeds: seq<Feed>, o: Origin, viewer: int, u: int): Entry
    requires o.at < |feeds|
  {
    match o.source
    case Everybody => SeenNow(feeds[o.at], viewer, u)
    case Of(n) =>
      if n < |feeds[o.at].sessions| then MaskUser(viewer, u, EntryOf(feeds[o.at].sessions[n])) else AWAY
    case Absence => AWAY
  }

  /** A frame shows whoever it is about as they were read. */
  ghost predicate Honest(feeds: seq<Feed>, k: nat, o: Origin, viewer: int, frame: Frame) {
    && o.at <= k && k < |feeds|
    && forall u :: IsAbout(frame, u) ==> Shown(frame, u) == Reading(feeds, o, viewer, u)
  }

  ghost predicate HonestQueue(feeds: seq<Feed>, k: nat, x: Session) {
    forall i :: 0 <= i < |x.out| ==> Honest(feeds, k, x.out[i].origin, x.user, x.out[i].frame)
  }

  ghost predicate HonestTask(feeds: seq<Feed>, k: nat, sessions: seq<Session>, t: Task) {
    t.Tell? ==> forall n: nat :: n in t.left && n < |sessions| ==>
      var w := WordTo(t.speech, sessions[n].user);
      w.Say? ==> Honest(feeds, k, t.origin, sessions[n].user, w.frame)
  }

  ghost predicate AllHonest(feeds: seq<Feed>, k: nat)
    requires k < |feeds|
  {
    var f := feeds[k];
    && (forall n :: 0 <= n < |f.sessions| ==> HonestQueue(feeds, k, f.sessions[n]))
    && (forall i :: 0 <= i < |f.tasks| ==> HonestTask(feeds, k, f.sessions, f.tasks[i]))
    && (forall i :: 0 <= i < |f.tasks| && f.tasks[i].Tell? ==> forall n :: n in f.tasks[i].left ==> n < |f.sessions|)
    && (forall u :: u in f.live ==> f.live[u] < |f.sessions| && f.sessions[f.live[u]].user == u)
    && f.clock == k
  }

  lemma SnapshotReads(f: Feed, viewer: int, u: int)
    ensures Shows(MembersNow(f, viewer), u) == SeenNow(f, viewer, u)
  {}

  /** A broadcast about one user, made from a view of them. */
  predicate Says(speech: Speech, u: int, e: Entry) {
    match speech
    case OfEverybody(_) => false
    case OfChange(_, x, entry) => x == u && entry == e
    case OfMember(x, entry) => x == u && entry == e
    case OfArrival(x, entry) => x == u && entry == e
    case OfDeparture(x) => x == u && e == AWAY
  }

  /** A broadcast says of its subject what was read, to whomever it says it. */
  lemma SpeechReads(speech: Speech, viewer: int, u: int, e: Entry)
    requires Says(speech, u, e)
    ensures var w := WordTo(speech, viewer);
      w.Say? ==> forall x :: IsAbout(w.frame, x) ==> x == u && Shown(w.frame, x) == MaskUser(viewer, u, e)
  {}

  lemma ToldHonestly(feeds: seq<Feed>, k: nat, speech: Speech, source: Source, viewer: int, u: int, e: Entry)
    requires k < |feeds|
    requires Says(speech, u, e)
    requires match source
      case Everybody => false
      case Of(n) => n < |feeds[k].sessions| && EntryOf(feeds[k].sessions[n]) == e
      case Absence => e == AWAY
    ensures var w := WordTo(speech, viewer); w.Say? ==> Honest(feeds, k, Origin(k, source), viewer, w.frame)
  {
    SpeechReads(speech, viewer, u, e);
  }

  lemma HonestLater(feeds: seq<Feed>, k: nat, o: Origin, viewer: int, frame: Frame)
    requires Honest(feeds, k, o, viewer, frame) && k + 1 < |feeds|
    ensures Honest(feeds, k + 1, o, viewer, frame)
  {}

  /** A later moment, and sessions of the same users. */
  ghost predicate SameUsers(sessions: seq<Session>, sessions': seq<Session>) {
    |sessions| <= |sessions'| && forall n :: 0 <= n < |sessions| ==> sessions'[n].user == sessions[n].user
  }

  lemma HonestTaskLater(feeds: seq<Feed>, k: nat, sessions: seq<Session>, sessions': seq<Session>, t: Task)
    requires HonestTask(feeds, k, sessions, t) && SameUsers(sessions, sessions') && k + 1 < |feeds|
    requires t.Tell? ==> forall n :: n in t.left ==> n < |sessions|
    ensures HonestTask(feeds, k + 1, sessions', t)
  {
    hide Honest, WordTo;
    if t.Tell? {
      forall n: nat | n in t.left && n < |sessions'| && WordTo(t.speech, sessions'[n].user).Say?
        ensures Honest(feeds, k + 1, t.origin, sessions'[n].user, WordTo(t.speech, sessions'[n].user).frame)
      {
        HonestLater(feeds, k, t.origin, sessions[n].user, WordTo(t.speech, sessions[n].user).frame);
      }
    }
  }

  lemma HonestQueueLater(feeds: seq<Feed>, k: nat, x: Session, x': Session)
    requires HonestQueue(feeds, k, x) && x'.user == x.user && x'.out == x.out && k + 1 < |feeds|
    ensures HonestQueue(feeds, k + 1, x')
  {
    hide Honest;
    forall i | 0 <= i < |x'.out|
      ensures Honest(feeds, k + 1, x'.out[i].origin, x'.user, x'.out[i].frame)
    {
      HonestLater(feeds, k, x.out[i].origin, x.user, x.out[i].frame);
    }
  }

  /** What a task may leave behind: the sessions with their queues, perhaps one more, and tasks that tell honestly. */
  ghost predicate QueuesKept(f: Feed, f': Feed) {
    && SameUsers(f.sessions, f'.sessions)
    && (forall n :: 0 <= n < |f.sessions| ==> f'.sessions[n].out == f.sessions[n].out)
    && (forall n :: |f.sessions| <= n < |f'.sessions| ==> f'.sessions[n].out == [])
    && (forall u :: u in f'.live ==> f'.live[u] < |f'.sessions| && f'.sessions[f'.live[u]].user == u)
  }

  ghost predicate Linked(f: Feed) {
    forall u :: u in f.live ==> f.live[u] < |f.sessions| && f.sessions[f.live[u]].user == u
  }

  /** Tasks after a step: some of those before, and new ones, of which the telling ones tell honestly. */
  ghost predicate TasksFrom(feeds: seq<Feed>, k: nat, f: Feed, f': Feed) {
    forall i :: 0 <= i < |f'.tasks| ==> f'.tasks[i] in f.tasks || NewTask(feeds, k, f, f'.tasks[i])
  }

  ghost predicate NewTask(feeds: seq<Feed>, k: nat, f: Feed, t: Task) {
    HonestTask(feeds, k, f.sessions, t) && (t.Tell? ==> forall n :: n in t.left ==> n < |f.sessions|)
  }

  /** A broadcast made now from a session's view, or from the lack of one. */
  lemma BroadcastHonestly(feeds: seq<Feed>, k: nat, f: Feed, speech: Speech, source: Source, u: int, e: Entry)
    requires k < |feeds| && f == feeds[k].(tasks := f.tasks) && f.clock == k && Linked(f) && Says(speech, u, e)
    requires match source
      case Everybody => false
      case Of(n) => n < |f.sessions| && EntryOf(f.sessions[n]) == e
      case Absence => e == AWAY
    ensures QueuesKept(f, Broadcast(f, speech, source)) && TasksFrom(feeds, k, f, Broadcast(f, speech, source))
  {
    hide Honest, EntryOf, WordTo, Says;
    forall viewer { ToldHonestly(feeds, k, speech, source, viewer, u, e); }
  }

  lemma SnapshotHonestly(feeds: seq<Feed>, k: nat, f: Feed, n: nat)
    requires k < |feeds| && f == feeds[k].(tasks := f.tasks) && f.clock == k && Linked(f) && n < |f.sessions|
    ensures var f' := Performed(f, MakeSnapshot(n)); QueuesKept(f, f') && TasksFrom(feeds, k, f, f')
  {
    var viewer := f.sessions[n].user;
    SnapshotHonest(feeds, k, f, viewer);
    EverybodySays(MembersNow(f, viewer), viewer);
    hide Honest, MembersNow, WordTo;
  }

  /** Whatever a task does, it leaves queues alone and tells only of what it has just read. */
  lemma PerformedHonestly(feeds: seq<Feed>, k: nat, f: Feed, t: Task)
    requires k < |feeds| && f == feeds[k].(tasks := f.tasks) && f.clock == k && Linked(f)
    ensures QueuesKept(f, Performed(f, t)) && TasksFrom(feeds, k, f, Performed(f, t))
  {
    match t
    case MakeSnapshot(n) =>
      if n < |f.sessions| { SnapshotHonestly(feeds, k, f, n); }
    case Announce(n) =>
      if n < |f.sessions| {
        var u, e := f.sessions[n].user, EntryOf(f.sessions[n]);
        hide QueuesKept, TasksFrom, EntryOf;
        BroadcastHonestly(feeds, k, f, OfArrival(u, e), Of(n), u, e);
      }
    case TellChange(n, was) =>
      if n < |f.sessions| {
        hide QueuesKept, TasksFrom, EntryOf;
        BroadcastHonestly(feeds, k, f, Telling(f, n, was), Of(n), f.sessions[n].user, EntryOf(f.sessions[n]));
      }
    case TellMember(n) =>
      if n < |f.sessions| {
        var u, e := f.sessions[n].user, EntryOf(f.sessions[n]);
        hide QueuesKept, TasksFrom, EntryOf;
        BroadcastHonestly(feeds, k, f, OfMember(u, e), Of(n), u, e);
      }
    case TellAbsent(u) =>
      BroadcastHonestly(feeds, k, f, OfMember(u, AWAY), Absence, u, AWAY);
    case TellDeparture(u, _) =>
      BroadcastHonestly(feeds, k, f, OfDeparture(u), Absence, u, AWAY);
    case Join(_, _) => PlainlyPerformed(feeds, k, f, t);
    case Find(_, _, _) => PlainlyPerformed(feeds, k, f, t);
    case SetRow(_, _, _) => PlainlyPerformed(feeds, k, f, t);
    case Leave(_, _) => PlainlyPerformed(feeds, k, f, t);
    case Tell(_, _, _) =>
  }

  /** What tells nothing leaves the queues as they are and adds no telling. */
  lemma PlainlyPerformed(feeds: seq<Feed>, k: nat, f: Feed, t: Task)
    requires k < |feeds| && Linked(f)
    requires t.Join? || t.Find? || t.SetRow? || t.Leave?
    ensures QueuesKept(f, Performed(f, t)) && TasksFrom(feeds, k, f, Performed(f, t))
  {
    hide Honest, EntryOf, MembersNow, WordTo;
  }

  lemma EverybodySays(users: map<int, Entry>, viewer: int)
    ensures WordTo(OfEverybody(users), viewer) == Say(Ready(users))
  {}

  lemma SnapshotHonest(feeds: seq<Feed>, k: nat, f: Feed, viewer: int)
    requires k < |feeds| && f == feeds[k].(tasks := f.tasks)
    ensures Honest(feeds, k, Origin(k, Everybody), viewer, Ready(MembersNow(f, viewer)))
  {
    forall u
      ensures Shown(Ready(MembersNow(f, viewer)), u) == SeenNow(feeds[k], viewer, u)
    {
      SnapshotReads(f, viewer, u);
      assert SeenNow(f, viewer, u) == SeenNow(feeds[k], viewer, u);
    }
  }

  // --- every step -----------------------------------------------------------

  lemma HonestNext(feeds: seq<Feed>, k: nat, f': Feed)
    requires k + 1 < |feeds| && AllHonest(feeds, k) && feeds[k + 1] == f'.(clock := k + 1)
    requires QueuesKept(feeds[k], f') && TasksFrom(feeds, k, feeds[k], f')
    ensures AllHonest(feeds, k + 1)
  {
    var f := feeds[k];
    hide HonestQueue, HonestTask;
    forall n | 0 <= n < |f'.sessions|
      ensures HonestQueue(feeds, k + 1, f'.sessions[n])
    {
      if n < |f.sessions| {
        HonestQueueLater(feeds, k, f.sessions[n], f'.sessions[n]);
      } else {
        NothingQueued(feeds, k + 1, f'.sessions[n]);
      }
    }
    forall i | 0 <= i < |f'.tasks|
      ensures HonestTask(feeds, k + 1, f'.sessions, f'.tasks[i])
    {
      HonestTaskLater(feeds, k, f.sessions, f'.sessions, f'.tasks[i]);
    }
  }

  lemma NothingQueued(feeds: seq<Feed>, k: nat, x: Session)
    requires x.out == []
    ensures HonestQueue(feeds, k, x)
  {}

  /** Queueing one viewer's word takes an honest frame off the telling and puts it in the queue. */
  lemma DeliverHonestly(feeds: seq<Feed>, k: nat, i: nat, n: nat)
    requires k + 1 < |feeds| && AllHonest(feeds, k) && Enabled(feeds[k], Deliver(i, n))
    requires feeds[k + 1] == After(feeds[k], Deliver(i, n))
    ensures AllHonest(feeds, k + 1)
  {
    var f, f' := feeds[k], feeds[k + 1];
    var t := f.tasks[i];
    var w := WordTo(t.speech, f.sessions[n].user);
    assert HonestTask(feeds, k, f.sessions, t);
    assert w.Say? ==> Honest(feeds, k, t.origin, f.sessions[n].user, w.frame);
    hide WordTo;
    forall m | 0 <= m < |f'.sessions|
      ensures HonestQueue(feeds, k + 1, f'.sessions[m])
    {
      hide Honest;
      HonestQueueLater(feeds, k, f.sessions[m], f.sessions[m]);
      if m == n && w.Say? {
        HonestLater(feeds, k, t.origin, f.sessions[n].user, w.frame);
      }
    }
    hide HonestQueue, Honest;
    forall j | 0 <= j < |f'.tasks|
      ensures HonestTask(feeds, k + 1, f'.sessions, f'.tasks[j])
    {
      HonestTaskLater(feeds, k, f.sessions, f'.sessions, f.tasks[j]);
    }
  }

  lemma StepHonest(feeds: seq<Feed>, k: nat, a: Action)
    requires k + 1 < |feeds| && AllHonest(feeds, k) && Enabled(feeds[k], a) && feeds[k + 1] == After(feeds[k], a)
    ensures AllHonest(feeds, k + 1)
  {
    var f := feeds[k];
    match a
    case Deliver(i, n) => DeliverHonestly(feeds, k, i, n);
    case Perform(i) =>
      var f0 := f.(tasks := Collections.Without(f.tasks, i));
      PerformedHonestly(feeds, k, f0, f.tasks[i]);
      var f' := Performed(f0, f.tasks[i]);
      hide Performed, Honest, HonestTask, HonestQueue;
      assert TasksFrom(feeds, k, f, f');
      HonestNext(feeds, k, f');
    case _ =>
      hide Honest, HonestTask, HonestQueue;
      StartHonest(feeds, k, a);
  }

  lemma StartHonest(feeds: seq<Feed>, k: nat, a: Action)
    requires k + 1 < |feeds| && AllHonest(feeds, k) && Enabled(feeds[k], a) && feeds[k + 1] == After(feeds[k], a)
    requires !a.Perform? && !a.Deliver?
    ensures AllHonest(feeds, k + 1)
  {
    var f := feeds[k];
    hide Honest, HonestQueue, SameActivity;
    assert QueuesKept(f, Acted(f, a)) && TasksFrom(feeds, k, f, Acted(f, a));
    hide HonestTask, TasksFrom, QueuesKept, Acted;
    HonestNext(feeds, k, Acted(f, a));
  }

  lemma {:induction false} RunHonest(feeds: seq<Feed>, actions: seq<Action>, k: nat)
    requires IsRun(feeds, actions) && Start(feeds[0]) && k < |feeds|
    ensures AllHonest(feeds, k)
  {
    if k > 0 {
      RunHonest(feeds, actions, k - 1);
      assert StepAt(feeds, actions, k - 1);
      hide AllHonest, After, Enabled, Start, IsRun;
      StepHonest(feeds, k - 1, actions[k - 1]);
    }
  }

  /** What a viewer has been sent so far in the session they have now. */
  function OutOf(f: Feed, v: int): seq<Posted> {
    if IsLive(f, v) then f.sessions[f.live[v]].out else []
  }

  /** A viewer's frames show a user as a snapshot taken now would. */
  predicate Right(f: Feed, v: int, u: int) {
    Shows(Fold(Frames(OutOf(f, v))), u) == Shows(MembersNow(f, v), u)
  }

  /** How the reading behind the last frame about a user reads to a viewer; away if there is none. */
  function LastReading(feeds: seq<Feed>, out: seq<Posted>, v: int, u: int): Entry {
    var i := LastAbout(out, u);
    if i < 0 || out[i].origin.at >= |feeds| then AWAY else Reading(feeds, out[i].origin, v, u)
  }

  /**
    At every moment of every run, however handlers interleave, a viewer's frames
    show a user as a snapshot taken then would if and only if the reading from
    which the last frame about that user was made reads to the viewer as the
    user does now.
   */
  lemma {:induction false} FeedExactly(feeds: seq<Feed>, actions: seq<Action>, k: nat, v: int, u: int)
    requires IsRun(feeds, actions) && Start(feeds[0]) && k < |feeds| && v in feeds[k].live
    ensures var out := OutOf(feeds[k], v);
      && (forall i :: 0 <= i < |out| ==> out[i].origin.at <= k)
      && (Right(feeds[k], v, u) <==> LastReading(feeds, out, v, u) == SeenNow(feeds[k], v, u))
  {
    RunHonest(feeds, actions, k);
    var f, out := feeds[k], OutOf(feeds[k], v);
    assert f.sessions[f.live[v]].user == v && HonestQueue(feeds, k, f.sessions[f.live[v]]);
    assert forall i :: 0 <= i < |out| ==> Honest(feeds, k, out[i].origin, v, out[i].frame);
    FoldShowsLast(out, u);
    SnapshotReads(f, v, u);
    hide IsRun, AllHonest, HonestQueue, Fold, SeenNow, Reading, MembersNow;
  }

  /** A reading of who a user was then: of everybody, of the session they had, or of their having none. */
  ghost predicate OfThem(feeds: seq<Feed>, o: Origin, u: int)
    requires o.at < |feeds|
  {
    match o.source
    case Everybody => true
    case Of(n) => IsLive(feeds[o.at], u) && feeds[o.at].live[u] == n
    case Absence => !IsLive(feeds[o.at], u)
  }

  /** Such a reading reads as the user was seen at that moment. */
  lemma ReadAsTheyWere(feeds: seq<Feed>, o: Origin, v: int, u: int)
    requires o.at < |feeds| && OfThem(feeds, o, u)
    ensures Reading(feeds, o, v, u) == SeenNow(feeds[o.at], v, u)
  {}

  /**
    So a feed is right when the last frame about a user was made from a reading
    of them since their last change, and wrong when they have come to read
    otherwise since.
   */
  lemma {:induction false} ReadSinceTheLastChange(feeds: seq<Feed>, actions: seq<Action>, k: nat, v: int, u: int)
    requires IsRun(feeds, actions) && Start(feeds[0]) && k < |feeds| && v in feeds[k].live
    requires var out := OutOf(feeds[k], v);
      var i := LastAbout(out, u);
      i >= 0 && out[i].origin.at < |feeds| && OfThem(feeds, out[i].origin, u)
    ensures var out := OutOf(feeds[k], v);
      var at := out[LastAbout(out, u)].origin.at;
      Right(feeds[k], v, u) <==> SeenNow(feeds[at], v, u) == SeenNow(feeds[k], v, u)
  {
    var out := OutOf(feeds[k], v);
    FeedExactly(feeds, actions, k, v, u);
    ReadAsTheyWere(feeds, out[LastAbout(out, u)].origin, v, u);
    hide IsRun, Start, Fold, Reading, SeenNow, MembersNow, OfThem;
  }
}
