/**
  The presence feed, one handler a step: what each connected viewer is sent, and
  what they would be shown if they asked afresh. PresenceRaces takes handlers
  apart. Only online, status, custom status and activity are followed.
 */
module Presence {
  import opened Wrappers
  import Collections

  /** One report of what somebody is doing outside; the party is counted apart. */
  datatype Activity = Activity(
    kind: string, name: string, details: string, state: string, startedAt: int, endsAt: int,
    image: string, icon: string, imageText: string, iconText: string, party: Option<Party>)

  datatype Party = Party(size: int, max: int)

  /** What is stored of a user that presence shows. */
  datatype Profile = Profile(status: string, custom: string)

  datatype Entry = Entry(online: bool, status: string, custom: string, activity: Option<Activity>)

  const AWAY := Entry(false, "offline", "", None)

  datatype Frame =
    | Ready(users: map<int, Entry>)
    | Connected(user: int, entry: Entry)
    | Updated(user: int, entry: Entry)
    | Disconnected(user: int)
    | Moved(user: int)

  /** Profiles of everybody known, who has an account, who is connected and doing what, and what each was sent. */
  datatype State = State(
    profiles: map<int, Profile>, registered: set<int>,
    live: map<int, Option<Activity>>, sent: map<int, seq<Frame>>)

  predicate HidesPresence(status: string) {
    status == "invisible" || status == "offline"
  }

  function Status(p: Profile): string {
    if p.status == "" then "online" else p.status
  }

  function ProfileOf(s: State, u: int): Profile {
    if u in s.profiles then s.profiles[u] else Profile("", "")
  }

  predicate Hidden(s: State, u: int) {
    HidesPresence(ProfileOf(s, u).status)
  }

  function Sent(s: State, v: int): seq<Frame> {
    if v in s.sent then s.sent[v] else []
  }

  /** A connected user's whole view, and an absent one's. */
  function View(s: State, u: int): Entry {
    if u in s.live then Entry(true, Status(ProfileOf(s, u)), ProfileOf(s, u).custom, s.live[u]) else AWAY
  }

  function MaskUser(viewer: int, u: int, e: Entry): Entry {
    if viewer != u && HidesPresence(e.status) then AWAY else e
  }

  /** What a viewer is to see of a user now. */
  function Seen(s: State, viewer: int, u: int): Entry {
    MaskUser(viewer, u, View(s, u))
  }

  /** The member list of a snapshot: everybody connected but hidden guests, and every absent member. */
  function Members(s: State, viewer: int): map<int, Entry> {
    map u | u in s.live.Keys + s.registered && Listed(s, viewer, u) :: Seen(s, viewer, u)
  }

  predicate Listed(s: State, viewer: int, u: int) {
    u in s.live ==> u == viewer || !HidesPresence(View(s, u).status) || u in s.registered
  }

  // --- what a client makes of its frames ------------------------------------

  function Apply(shown: map<int, Entry>, f: Frame): map<int, Entry> {
    match f
    case Ready(users) => users
    case Connected(u, e) => shown[u := e]
    case Updated(u, e) => shown[u := e]
    case Disconnected(u) => shown[u := AWAY]
    case Moved(_) => shown
  }

  function Fold(frames: seq<Frame>): map<int, Entry> {
    if frames == [] then map[] else Apply(Fold(frames[..|frames| - 1]), frames[|frames| - 1])
  }

  /** Somebody not listed reads as away. */
  function Shows(shown: map<int, Entry>, u: int): Entry {
    if u in shown then shown[u] else AWAY
  }

  // --- broadcasting ---------------------------------------------------------

  /** What one broadcast says to one viewer, if anything. */
  datatype Word = Silent | Say(frame: Frame)

  function Heard(frames: seq<Frame>, w: Word): seq<Frame> {
    if w.Silent? then frames else frames + [w.frame]
  }

  /** One word to each connected viewer. */
  ghost function SendAll(s: State, words: int -> Word): State {
    s.(sent := map v | v in s.sent :: if v in s.live then Heard(s.sent[v], words(v)) else s.sent[v])
  }

  /** Everybody else is told by how the change reads to them; the subject sees themselves whole. */
  function PresenceWord(was: string, u: int, e: Entry, viewer: int): Word {
    if viewer == u then Say(Updated(u, e))
    else if HidesPresence(e.status) then
      if HidesPresence(was) then Silent else Say(Disconnected(u))
    else Say(Updated(u, MaskUser(viewer, u, e)))
  }

  function MemberWord(u: int, e: Entry, viewer: int): Word {
    Say(Updated(u, MaskUser(viewer, u, e)))
  }

  /** Nobody is told of an arrival nobody can see; the arrival itself has a snapshot instead. */
  function ArrivalWord(u: int, e: Entry, viewer: int): Word {
    if viewer == u || HidesPresence(e.status) then Silent else Say(Connected(u, MaskUser(viewer, u, e)))
  }

  function DepartureWord(status: string, u: int): Word {
    if HidesPresence(status) then Silent else Say(Disconnected(u))
  }

  /** A move reaches those who may see an end of it, and of a hidden user only themselves. */
  function MoveWord(status: string, u: int, audience: set<int>, viewer: int): Word {
    if viewer == u then Say(Moved(u))
    else if HidesPresence(status) || viewer !in audience then Silent
    else Say(Moved(u))
  }

  // --- handlers -------------------------------------------------------------

  /** Deep equality of two reports, the parties compared by what they hold. */
  predicate SameActivity(a: Option<Activity>, b: Option<Activity>) {
    match (a, b)
    case (None, None) => true
    case (Some(x), Some(y)) =>
      && (match (x.party, y.party)
          case (None, None) => true
          case (Some(p), Some(q)) => p.size == q.size && p.max == q.max
          case _ => false)
      && x.(party := None) == y.(party := None)
    case _ => false
  }

  datatype Action =
    | SignIn(user: int)
    | SignOut(user: int)
    | SetProfile(user: int, profile: Profile)
    | ReportActivity(user: int, activity: Option<Activity>)
    | ChangeMember(user: int)
    | Move(user: int, audience: set<int>)
    | Resync(user: int)

  ghost predicate Enabled(s: State, a: Action) {
    match a
    case SignIn(u) => u in s.profiles
    case ChangeMember(u) => u in s.profiles
    case _ => a.user in s.live
  }

  ghost function Next(s: State, a: Action): State
    requires Enabled(s, a)
  {
    match a
    case SignIn(u) =>
      var s1 := s.(live := s.live[u := None]);
      var s2 := s1.(sent := s1.sent[u := [Ready(Members(s1, u))]]);
      SendAll(s2, v => ArrivalWord(u, View(s1, u), v))
    case SignOut(u) =>
      SendAll(s.(live := s.live - {u}), v => DepartureWord(ProfileOf(s, u).status, u))
    case SetProfile(u, profile) =>
      var s1 := s.(profiles := s.profiles[u := profile]);
      SendAll(s1, v => PresenceWord(ProfileOf(s, u).status, u, View(s1, u), v))
    case ReportActivity(u, activity) =>
      if SameActivity(s.live[u], activity) then s
      else
        var s1 := s.(live := s.live[u := activity]);
        SendAll(s1, v => PresenceWord(View(s1, u).status, u, View(s1, u), v))
    case ChangeMember(u) => SendAll(s, v => MemberWord(u, View(s, u), v))
    case Move(u, audience) => SendAll(s, v => MoveWord(ProfileOf(s, u).status, u, audience, v))
    case Resync(u) => s.(sent := s.sent[u := Sent(s, u) + [Ready(Members(s, u))]])
  }

  /** Every connected viewer's frames add up to what they are to see. */
  ghost predicate InStep(s: State) {
    && (forall v :: v in s.live ==> v in s.sent)
    && (forall v, u :: v in s.live ==> Shows(Fold(s.sent[v]), u) == Seen(s, v, u))
  }

  // --- one broadcast --------------------------------------------------------

  /** A word that carries one user from how they were shown to how they are to be shown. */
  ghost predicate Carries(w: Word, u: int, before: Entry, after: Entry) {
    match w
    case Silent => before == after
    case Say(Moved(_)) => before == after
    case Say(Connected(x, e)) => x == u && e == after
    case Say(Updated(x, e)) => x == u && e == after
    case Say(Disconnected(x)) => x == u && after == AWAY
    case Say(Ready(_)) => false
  }

  lemma HeardShows(frames: seq<Frame>, w: Word, u: int, before: Entry, after: Entry, x: int)
    requires Carries(w, u, before, after) && Shows(Fold(frames), u) == before
    ensures Shows(Fold(Heard(frames, w)), x) == if x == u then after else Shows(Fold(frames), x)
  {
    if w.Say? {
      assert Heard(frames, w)[..|frames|] == frames;
    }
  }

  /** A broadcast about one user keeps every viewer in step when its words say how the user now reads to each. */
  lemma BroadcastInStep(s: State, s1: State, u: int, words: int -> Word)
    requires InStep(s) && s1.sent == s.sent && s1.live.Keys <= s.live.Keys
    requires forall x :: x != u ==> View(s1, x) == View(s, x)
    requires forall v :: v in s1.live ==> Carries(words(v), u, Seen(s, v, u), Seen(s1, v, u))
    ensures InStep(SendAll(s1, words))
  {
    var s' := SendAll(s1, words);
    forall v, x | v in s'.live
      ensures Shows(Fold(s'.sent[v]), x) == Seen(s', v, x)
    {
      assert v in s.live && View(s', x) == View(s1, x);
      hide Fold, Shows, Carries;
      HeardShows(s.sent[v], words(v), u, Seen(s, v, u), Seen(s1, v, u), x);
    }
  }

  // --- snapshots ------------------------------------------------------------

  /** A snapshot shows everybody as they are to be seen, those it leaves out as away. */
  lemma SnapshotShows(s: State, v: int, u: int)
    ensures Shows(Members(s, v), u) == Seen(s, v, u)
  {}

  lemma FoldReady(frames: seq<Frame>, users: map<int, Entry>)
    ensures Fold(frames + [Ready(users)]) == users
  {
    assert (frames + [Ready(users)])[..|frames|] == frames;
  }

  // --- every handler --------------------------------------------------------

  /** An unchanged report is one that holds the same. */
  lemma SameActivityIsEqual(a: Option<Activity>, b: Option<Activity>)
    ensures SameActivity(a, b) <==> a == b
  {}

  lemma SignInInStep(s: State, u: int)
    requires InStep(s) && u in s.profiles
    ensures InStep(Next(s, SignIn(u)))
  {
    var s1 := s.(live := s.live[u := None]);
    var s2 := s1.(sent := s1.sent[u := [Ready(Members(s1, u))]]);
    var words := v => ArrivalWord(u, View(s1, u), v);
    var s' := SendAll(s2, words);
    assert s' == Next(s, SignIn(u));
    forall v, x | v in s'.live
      ensures v in s'.sent && Shows(Fold(s'.sent[v]), x) == Seen(s', v, x)
    {
      assert View(s', x) == View(s1, x) && (x != u ==> View(s1, x) == View(s, x));
      if v == u {
        FoldReady([], Members(s1, u));
        assert [] + [Ready(Members(s1, u))] == [Ready(Members(s1, u))];
        SnapshotShows(s1, u, x);
      } else {
        assert Carries(words(v), u, Seen(s, v, u), Seen(s1, v, u));
        hide Fold, Shows, Carries;
        HeardShows(s.sent[v], words(v), u, Seen(s, v, u), Seen(s1, v, u), x);
      }
    }
  }

  lemma ResyncInStep(s: State, u: int)
    requires InStep(s) && u in s.live
    ensures InStep(Next(s, Resync(u)))
  {
    var s' := Next(s, Resync(u));
    forall v, x | v in s'.live
      ensures Shows(Fold(s'.sent[v]), x) == Seen(s', v, x)
    {
      assert View(s', x) == View(s, x);
      if v == u {
        FoldReady(Sent(s, u), Members(s, u));
        SnapshotShows(s, u, x);
      }
    }
  }

  lemma SetProfileInStep(s: State, u: int, profile: Profile)
    requires InStep(s) && u in s.live
    ensures InStep(Next(s, SetProfile(u, profile)))
  {
    hide InStep, SendAll;
    var s1 := s.(profiles := s.profiles[u := profile]);
    BroadcastInStep(s, s1, u, v => PresenceWord(ProfileOf(s, u).status, u, View(s1, u), v));
  }

  lemma ReportInStep(s: State, u: int, activity: Option<Activity>)
    requires InStep(s) && u in s.live
    ensures InStep(Next(s, ReportActivity(u, activity)))
  {
    hide InStep, SendAll;
    if !SameActivity(s.live[u], activity) {
      var s1 := s.(live := s.live[u := activity]);
      BroadcastInStep(s, s1, u, v => PresenceWord(View(s1, u).status, u, View(s1, u), v));
    }
  }

  lemma StepInStep(s: State, a: Action)
    requires InStep(s) && Enabled(s, a)
    ensures InStep(Next(s, a))
  {
    match a
    case SignIn(u) => SignInInStep(s, u);
    case SignOut(u) =>
      hide InStep, SendAll;
      BroadcastInStep(s, s.(live := s.live - {u}), u, v => DepartureWord(ProfileOf(s, u).status, u));
    case SetProfile(u, profile) => SetProfileInStep(s, u, profile);
    case ReportActivity(u, activity) => ReportInStep(s, u, activity);
    case ChangeMember(u) =>
      hide InStep, SendAll;
      BroadcastInStep(s, s, u, v => MemberWord(u, View(s, u), v));
    case Move(u, audience) =>
      hide InStep, SendAll;
      BroadcastInStep(s, s, u, v => MoveWord(ProfileOf(s, u).status, u, audience, v));
    case Resync(u) => ResyncInStep(s, u);
  }

  ghost predicate StepAt(states: seq<State>, actions: seq<Action>, k: nat)
    requires k < |actions| == |states| - 1
  {
    Enabled(states[k], actions[k]) && states[k + 1] == Next(states[k], actions[k])
  }

  ghost predicate IsRun(states: seq<State>, actions: seq<Action>) {
    |states| == |actions| + 1 && forall k: nat :: k < |actions| ==> StepAt(states, actions, k)
  }

  /**
    At every moment of every run of whole handlers, every viewer's frames show
    each user exactly as a snapshot taken then would.
   */
  lemma {:induction false} FeedEqualsSnapshot(states: seq<State>, actions: seq<Action>, k: nat, v: int, u: int)
    requires IsRun(states, actions) && states[0].live == map[] && k < |states|
    requires v in states[k].live
    ensures v in states[k].sent
    ensures Shows(Fold(states[k].sent[v]), u) == Shows(Members(states[k], v), u)
  {
    RunInStep(states, actions, k);
    SnapshotShows(states[k], v, u);
  }

  lemma {:induction false} RunInStep(states: seq<State>, actions: seq<Action>, k: nat)
    requires IsRun(states, actions) && states[0].live == map[] && k < |states|
    ensures InStep(states[k])
  {
    if k > 0 {
      RunInStep(states, actions, k - 1);
      assert StepAt(states, actions, k - 1);
      hide InStep, Next;
      StepInStep(states[k - 1], actions[k - 1]);
    }
  }

  /** A step of somebody's own doing; a change to a member is somebody else's. */
  predicate OwnDoing(a: Action, u: int) {
    a.user == u && !a.ChangeMember?
  }

  // --- hiding ---------------------------------------------------------------

  ghost predicate Possible(s: State, actions: seq<Action>)
    decreases |actions|
  {
    actions == [] || (Enabled(s, actions[0]) && Possible(Next(s, actions[0]), actions[1..]))
  }

  ghost function Outcome(s: State, actions: seq<Action>): State
    requires Possible(s, actions)
    decreases |actions|
  {
    if actions == [] then s else Outcome(Next(s, actions[0]), actions[1..])
  }

  ghost predicate HiddenThroughout(s: State, actions: seq<Action>, u: int)
    requires Possible(s, actions)
    decreases |actions|
  {
    Hidden(s, u) && (actions != [] ==> HiddenThroughout(Next(s, actions[0]), actions[1..], u))
  }

  /** The same, had one user done nothing. */
  function ByOthers(actions: seq<Action>, u: int): seq<Action> {
    if actions == [] then []
    else (if OwnDoing(actions[0], u) then [] else [actions[0]]) + ByOthers(actions[1..], u)
  }

  /** Two states that differ only in one user, hidden in both: in what they do, and what they are sent. */
  ghost predicate AlikeBut(s: State, t: State, u: int) {
    && Hidden(s, u) && Hidden(t, u) && u in s.profiles && u in t.profiles && s.registered == t.registered
    && (forall x :: x != u ==> (x in s.live <==> x in t.live) && (x in s.profiles <==> x in t.profiles))
    && (forall x :: x != u && x in s.live ==> s.live[x] == t.live[x])
    && (forall x :: x != u && x in s.profiles ==> s.profiles[x] == t.profiles[x])
    && (forall v :: v != u ==> SameHearing(s, t, v))
  }

  /** One viewer has been sent the same in both. */
  ghost predicate SameHearing(s: State, t: State, v: int) {
    (v in s.sent <==> v in t.sent) && (v in s.sent ==> s.sent[v] == t.sent[v])
  }

  /** What a hidden user does themselves, no other viewer is sent anything of. */
  lemma OwnStep(s: State, t: State, a: Action, u: int)
    requires AlikeBut(s, t, u) && Enabled(s, a) && OwnDoing(a, u) && Hidden(Next(s, a), u)
    ensures AlikeBut(Next(s, a), t, u)
  {
    hide Members;
    forall v | v != u
      ensures SameHearing(Next(s, a), t, v)
    {
      assert SameHearing(s, t, v);
    }
  }

  lemma SameMembers(s: State, t: State, u: int, v: int)
    requires AlikeBut(s, t, u) && v != u
    ensures Members(s, v) == Members(t, v)
  {
    forall x: int
      ensures x in Members(s, v) <==> x in Members(t, v)
      ensures x in Members(s, v) ==> Members(s, v)[x] == Members(t, v)[x]
    {
      assert x in Members(s, v) <==> (x in s.live || x in s.registered) && Listed(s, v, x);
      assert x in Members(t, v) <==> (x in t.live || x in t.registered) && Listed(t, v, x);
    }
    Collections.SameMap(Members(s, v), Members(t, v));
  }

  lemma SentAlike(s: State, t: State, words: int -> Word, words': int -> Word, u: int)
    requires AlikeBut(s, t, u) && forall v :: v != u && v in s.live ==> words(v) == words'(v)
    ensures AlikeBut(SendAll(s, words), SendAll(t, words'), u)
  {
    forall v | v != u
      ensures SameHearing(SendAll(s, words), SendAll(t, words'), v)
    {
      assert SameHearing(s, t, v);
    }
  }

  lemma SameView(s: State, t: State, u: int, x: int)
    requires AlikeBut(s, t, u) && x != u
    ensures View(s, x) == View(t, x) && ProfileOf(s, x) == ProfileOf(t, x)
  {}

  lemma ChangedAlike(s: State, t: State, a: Action, u: int)
    requires AlikeBut(s, t, u) && Enabled(s, a) && a.user != u && (a.SetProfile? || a.ReportActivity?)
    ensures AlikeBut(Next(s, a), Next(t, a), u)
  {
    var x := a.user;
    SameView(s, t, u, x);
    if a.SetProfile? {
      var s1, t1 := s.(profiles := s.profiles[x := a.profile]), t.(profiles := t.profiles[x := a.profile]);
      assert AlikeBut(s1, t1, u) by { LiveAlike(s, t, s1, t1, u); }
      SameView(s1, t1, u, x);
      hide AlikeBut, SendAll, PresenceWord;
      SentAlike(s1, t1, v => PresenceWord(ProfileOf(s, x).status, x, View(s1, x), v),
                v => PresenceWord(ProfileOf(t, x).status, x, View(t1, x), v), u);
    } else if !SameActivity(s.live[x], a.activity) {
      var s1, t1 := s.(live := s.live[x := a.activity]), t.(live := t.live[x := a.activity]);
      assert AlikeBut(s1, t1, u) by { LiveAlike(s, t, s1, t1, u); }
      SameView(s1, t1, u, x);
      assert t.live[x] == s.live[x];
      hide AlikeBut, SendAll, PresenceWord, SameActivity;
      SentAlike(s1, t1, v => PresenceWord(View(s1, x).status, x, View(s1, x), v),
                v => PresenceWord(View(t1, x).status, x, View(t1, x), v), u);
    }
  }

  lemma LiveAlike(s: State, t: State, s1: State, t1: State, u: int)
    requires AlikeBut(s, t, u) && s1.sent == s.sent && t1.sent == t.sent
    ensures forall v :: v != u ==> SameHearing(s1, t1, v)
  {
    forall v | v != u
      ensures SameHearing(s1, t1, v)
    {
      assert SameHearing(s, t, v);
    }
  }

  /** What anybody else does reads the same to every other viewer in both. */
  lemma OthersStep(s: State, t: State, a: Action, u: int)
    requires AlikeBut(s, t, u) && Enabled(s, a) && !OwnDoing(a, u)
    ensures Enabled(t, a) && AlikeBut(Next(s, a), Next(t, a), u)
  {
    var x := a.user;
    if x != u { SameView(s, t, u, x); }
    match a
    case SignIn(_) => SignInAlike(s, t, x, u);
    case SignOut(_) =>
      var s1, t1 := s.(live := s.live - {x}), t.(live := t.live - {x});
      assert AlikeBut(s1, t1, u) by { LiveAlike(s, t, s1, t1, u); }
      SentAlike(s1, t1, v => DepartureWord(ProfileOf(s, x).status, x),
                v => DepartureWord(ProfileOf(t, x).status, x), u);
      hide AlikeBut, SendAll;
    case SetProfile(_, _) => ChangedAlike(s, t, a, u);
    case ReportActivity(_, _) => ChangedAlike(s, t, a, u);
    case ChangeMember(_) =>
      SentAlike(s, t, v => MemberWord(x, View(s, x), v), v => MemberWord(x, View(t, x), v), u);
      hide AlikeBut, SendAll;
    case Move(_, audience) =>
      SentAlike(s, t, v => MoveWord(ProfileOf(s, x).status, x, audience, v),
                v => MoveWord(ProfileOf(t, x).status, x, audience, v), u);
      hide AlikeBut, SendAll;
    case Resync(_) =>
      SameMembers(s, t, u, x);
      hide Members;
      forall v | v != u
        ensures SameHearing(Next(s, a), Next(t, a), v)
      {
        assert SameHearing(s, t, v) && SameHearing(s, t, x);
      }
  }

  lemma SignInAlike(s: State, t: State, x: int, u: int)
    requires AlikeBut(s, t, u) && x in s.profiles && x != u
    ensures x in t.profiles && AlikeBut(Next(s, SignIn(x)), Next(t, SignIn(x)), u)
  {
    var s1, t1 := s.(live := s.live[x := None]), t.(live := t.live[x := None]);
    assert AlikeBut(s1, t1, u) by { LiveAlike(s, t, s1, t1, u); }
    SameMembers(s1, t1, u, x);
    SameView(s1, t1, u, x);
    hide Members;
    var s2 := s1.(sent := s1.sent[x := [Ready(Members(s1, x))]]);
    var t2 := t1.(sent := t1.sent[x := [Ready(Members(t1, x))]]);
    forall v | v != u
      ensures SameHearing(s2, t2, v)
    {
      assert SameHearing(s1, t1, v);
    }
    assert AlikeBut(s2, t2, u);
    hide AlikeBut, SendAll;
    SentAlike(s2, t2, v => ArrivalWord(x, View(s1, x), v), v => ArrivalWord(x, View(t1, x), v), u);
  }

  lemma {:induction false} AlikeThroughout(s: State, t: State, actions: seq<Action>, u: int)
    requires Possible(s, actions) && HiddenThroughout(s, actions, u) && AlikeBut(s, t, u)
    ensures Possible(t, ByOthers(actions, u))
    ensures AlikeBut(Outcome(s, actions), Outcome(t, ByOthers(actions, u)), u)
    decreases |actions|
  {
    if actions != [] {
      var a, rest := actions[0], actions[1..];
      assert Hidden(Next(s, a), u);
      hide AlikeBut, Next, Enabled, Hidden;
      if OwnDoing(a, u) {
        OwnStep(s, t, a, u);
        AlikeThroughout(Next(s, a), t, rest, u);
        assert [] + ByOthers(rest, u) == ByOthers(rest, u);
      } else {
        OthersStep(s, t, a, u);
        AlikeThroughout(Next(s, a), Next(t, a), rest, u);
        assert ([a] + ByOthers(rest, u))[1..] == ByOthers(rest, u);
      }
    }
  }

  /**
    Throughout any stretch in which a user is hidden, every other viewer is sent
    exactly what they would have been sent had that user done nothing at all:
    not signed in or out, not changed, moved or reported anything.
   */
  lemma {:induction false} HiddenIsSilent(s: State, actions: seq<Action>, u: int, v: int)
    requires Possible(s, actions) && HiddenThroughout(s, actions, u) && u in s.profiles && v != u
    ensures Possible(s, ByOthers(actions, u))
    ensures Sent(Outcome(s, actions), v) == Sent(Outcome(s, ByOthers(actions, u)), v)
  {
    assert AlikeBut(s, s, u);
    AlikeThroughout(s, s, actions, u);
    assert SameHearing(Outcome(s, actions), Outcome(s, ByOthers(actions, u)), v);
    hide AlikeBut, Outcome;
  }

  /** What somebody else changes about a hidden member reads to everybody as it would of an absent one. */
  lemma HiddenReadsAsAbsent(s: State, u: int, v: int)
    requires Hidden(s, u) && v != u
    ensures Seen(s, v, u) == AWAY && MemberWord(u, View(s, u), v) == MemberWord(u, AWAY, v)
  {}
}
