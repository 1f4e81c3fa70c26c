/** What the presence feed shows of a user, told from what is stored and reported of them. */
module PresenceFields {
  import opened Wrappers
  import opened Presence
  import PresenceRaces

  /** Hiding is being invisible or choosing to look offline. */
  predicate Hiding(p: Profile) {
    p.status == "invisible" || p.status == "offline"
  }

  /** The entry of somebody online: their status, online if they set none, their own text, and what they do now. */
  predicate ShownOnline(e: Entry, p: Profile, activity: Option<Activity>) {
    && e.online && (p.status == "" ==> e.status == "online") && (p.status != "" ==> e.status == p.status)
    && e.custom == p.custom && e.activity == activity
  }

  predicate ShownAway(e: Entry) {
    !e.online && e.status == "offline" && e.custom == "" && e.activity == None
  }

  function Stored(s: State, u: int): Profile {
    if u in s.profiles then s.profiles[u] else Profile("", "")
  }

  /** How a user is to be shown to a viewer, by what is stored and reported. */
  predicate ShownRightly(s: State, v: int, u: int, e: Entry) {
    if u in s.live && (u == v || !Hiding(Stored(s, u))) then ShownOnline(e, Stored(s, u), s.live[u]) else ShownAway(e)
  }

  lemma SeenFields(s: State, v: int, u: int)
    ensures ShownRightly(s, v, u, Seen(s, v, u))
  {}

  /** A snapshot shows everybody by their fields. */
  lemma SnapshotFields(s: State, v: int, u: int)
    ensures ShownRightly(s, v, u, Shows(Members(s, v), u))
  {
    SnapshotShows(s, v, u);
    SeenFields(s, v, u);
    hide Members, Seen, ShownRightly;
  }

  /** It lists whoever has an account, and of the others those connected who do not hide, and oneself. */
  lemma SnapshotLists(s: State, v: int, u: int)
    requires v in s.live
    ensures u in Members(s, v) <==>
      u in s.registered || (u in s.live && (u == v || !Hiding(Stored(s, u))))
  {
    assert u in s.live ==> (HidesPresence(View(s, u).status) <==> Hiding(Stored(s, u)));
    hide HidesPresence, Hiding, Seen, View;
  }

  /**
    At every moment of every run of whole handlers, a viewer's frames add up to
    each user's own fields: online with the status, the text and the activity
    they have now, or away if they are not there or hide from the viewer.
   */
  lemma {:induction false} FeedShowsTheFields(states: seq<State>, actions: seq<Action>, k: nat, v: int, u: int)
    requires IsRun(states, actions) && states[0].live == map[] && k < |states|
    requires v in states[k].live
    ensures v in states[k].sent && ShownRightly(states[k], v, u, Shows(Fold(states[k].sent[v]), u))
  {
    RunInStep(states, actions, k);
    SeenFields(states[k], v, u);
    hide Seen, ShownRightly, Fold, Shows;
  }

  /** What a handler changes of what is stored and reported. */
  lemma StepChanges(s: State, a: Action)
    requires Enabled(s, a)
    ensures var s' := Next(s, a);
      && s'.registered == s.registered
      && s'.profiles == (if a.SetProfile? then s.profiles[a.user := a.profile] else s.profiles)
      && s'.live == (match a
                     case SignIn(u) => s.live[u := None]
                     case SignOut(u) => s.live - {u}
                     case ReportActivity(u, activity) => s.live[u := activity]
                     case _ => s.live)
  {
    if a.ReportActivity? { SameActivityIsEqual(s.live[a.user], a.activity); }
    hide SendAll, SameActivity, Members;
  }

  /** Whether a handler sends somebody connected a frame. */
  predicate IsTold(s: State, a: Action, v: int) {
    match a
    case SignIn(u) => v == u || !Hiding(Stored(s, u))
    case SignOut(u) => !Hiding(Stored(s, u))
    case SetProfile(u, profile) => v == u || !(Hiding(Stored(s, u)) && Hiding(profile))
    case ReportActivity(u, activity) =>
      u in s.live && activity != s.live[u] && (v == u || !Hiding(Stored(s, u)))
    case ChangeMember(_) => true
    case Move(u, audience) => v == u || (v in audience && !Hiding(Stored(s, u)))
    case Resync(u) => v == u
  }

  predicate IsOneMore(frames: seq<Frame>, before: seq<Frame>) {
    frames != [] && frames[..|frames| - 1] == before
  }

  /** Just those are sent one frame, the arrival its first, and nobody else any. */
  lemma StepTells(s: State, a: Action, v: int)
    requires Enabled(s, a) && v in s.sent && v in Next(s, a).live
    ensures var sent := Next(s, a).sent;
      && v in sent
      && (!IsTold(s, a, v) ==> sent[v] == s.sent[v])
      && (IsTold(s, a, v) ==> IsOneMore(sent[v], if a == SignIn(v) then [] else s.sent[v]))
  {
    if a.ReportActivity? { SameActivityIsEqual(s.live[a.user], a.activity); }
    hide SameActivity, Members, MaskUser;
  }

  /** So once somebody who does not hide has reported an activity, every viewer's frames show it. */
  lemma {:induction false} ReportIsShown(states: seq<State>, actions: seq<Action>, k: nat, v: int)
    requires IsRun(states, actions) && states[0].live == map[] && k < |actions| && actions[k].ReportActivity?
    requires v in states[k + 1].live && !Hiding(Stored(states[k], actions[k].user))
    ensures v in states[k + 1].sent
    ensures Shows(Fold(states[k + 1].sent[v]), actions[k].user).online
    ensures Shows(Fold(states[k + 1].sent[v]), actions[k].user).activity == actions[k].activity
  {
    var u := actions[k].user;
    FeedShowsTheFields(states, actions, k + 1, v, u);
    assert StepAt(states, actions, k);
    StepChanges(states[k], actions[k]);
    hide IsRun, Next, Fold, Shows, Enabled;
  }

  /** And once somebody has set a profile that does not hide, every viewer's frames show its status and text. */
  lemma {:induction false} ProfileIsShown(states: seq<State>, actions: seq<Action>, k: nat, v: int)
    requires IsRun(states, actions) && states[0].live == map[] && k < |actions| && actions[k].SetProfile?
    requires v in states[k + 1].live && !Hiding(actions[k].profile)
    ensures v in states[k + 1].sent
    ensures actions[k].user in states[k].live
    ensures ShownOnline(Shows(Fold(states[k + 1].sent[v]), actions[k].user), actions[k].profile,
                        states[k].live[actions[k].user])
  {
    var u := actions[k].user;
    FeedShowsTheFields(states, actions, k + 1, v, u);
    assert StepAt(states, actions, k);
    StepChanges(states[k], actions[k]);
    hide IsRun, Next, Fold, Shows, ShownOnline;
  }

  /** A move is told to oneself, and of who does not hide to those who may see an end of it, and to nobody else. */
  lemma MoveReaches(s: State, u: int, audience: set<int>, v: int)
    requires Enabled(s, Move(u, audience)) && v in s.sent
    ensures var sent := Next(s, Move(u, audience)).sent;
      && v in sent
      && sent[v] == s.sent[v] +
        if v in s.live && (v == u || (v in audience && !Hiding(Stored(s, u)))) then [Moved(u)] else []
  {}

  // --- the same where handlers interleave -----------------------------------

  /** The profile a session believes its user to have, and what is stored of who has none. */
  function Believed(f: PresenceRaces.Feed, u: int): Profile {
    if u in f.live && f.live[u] < |f.sessions| then f.sessions[f.live[u]].profile
    else if u in f.stored then f.stored[u]
    else Profile("", "")
  }

  /** A moment of interleaved handlers as the state of whole ones. */
  ghost function StateOf(f: PresenceRaces.Feed): State
    requires PresenceRaces.Linked(f)
  {
    State(map u | u in f.live.Keys + f.stored.Keys :: Believed(f, u), f.registered,
          map u | u in f.live :: f.sessions[f.live[u]].activity,
          map u | u in f.live :: PresenceRaces.Frames(f.sessions[f.live[u]].out))
  }

  /** What is read there is the view of that state, and so is what a snapshot lists. */
  lemma ReadingsAgree(f: PresenceRaces.Feed, v: int, u: int)
    requires PresenceRaces.Linked(f)
    ensures PresenceRaces.ViewNow(f, u) == View(StateOf(f), u)
    ensures PresenceRaces.SeenNow(f, v, u) == Seen(StateOf(f), v, u)
    ensures u in PresenceRaces.MembersNow(f, v) <==> u in Members(StateOf(f), v)
    ensures Shows(PresenceRaces.MembersNow(f, v), u) == Shows(Members(StateOf(f), v), u)
  {}

  /** What one part of a handler changes of sessions, places and what is stored, and nothing else does. */
  lemma RacingStepChanges(f: PresenceRaces.Feed, a: PresenceRaces.Action)
    requires PresenceRaces.Linked(f) && PresenceRaces.Enabled(f, a) && !a.Perform? && !a.Deliver?
    ensures var f' := PresenceRaces.After(f, a);
      && f'.registered == f.registered && f'.live == f.live && f'.clock == f.clock + 1
      && f'.stored == (if a.Store? then f.stored[a.user := a.row] else f.stored)
      && |f'.sessions| == |f.sessions|
      && forall n :: 0 <= n < |f.sessions| ==>
        f'.sessions[n] ==
          if a.Report? && a.session == n then f.sessions[n].(activity := a.activity)
          else if a.Close? && a.session == n then f.sessions[n].(open := false)
          else f.sessions[n]
  {
    if a.Report? { SameActivityIsEqual(f.sessions[a.session].activity, a.activity); }
    hide SameActivity;
  }

  lemma PerformedChanges(f: PresenceRaces.Feed, t: PresenceRaces.Task)
    requires PresenceRaces.Linked(f)
    ensures var f' := PresenceRaces.Performed(f, t);
      && f'.registered == f.registered && f'.stored == f.stored && f'.clock == f.clock
      && f'.live == (match t
                     case Join(u, _) => f.live[u := |f.sessions|]
                     case Leave(n, _) =>
                       if n < |f.sessions| && f.sessions[n].user in f.live && f.live[f.sessions[n].user] == n
                       then f.live - {f.sessions[n].user} else f.live
                     case _ => f.live)
      && f'.sessions == (match t
                         case Join(u, row) => f.sessions + [PresenceRaces.Session(u, row, None, [], true)]
                         case SetRow(n, _, row) =>
                           if n < |f.sessions| then f.sessions[n := f.sessions[n].(profile := row)] else f.sessions
                         case _ => f.sessions)
  {
    hide PresenceRaces.MembersNow, PresenceRaces.EntryOf;
  }

  /** So a viewer is right about a user exactly when their frames show the user's own fields. */
  lemma RightMeansFields(f: PresenceRaces.Feed, v: int, u: int)
    requires PresenceRaces.Linked(f)
    ensures PresenceRaces.Right(f, v, u) <==>
      ShownRightly(StateOf(f), v, u, Shows(Fold(PresenceRaces.Frames(PresenceRaces.OutOf(f, v))), u))
  {
    ReadingsAgree(f, v, u);
    SnapshotFields(StateOf(f), v, u);
    var shown := Shows(Fold(PresenceRaces.Frames(PresenceRaces.OutOf(f, v))), u);
    hide Members, PresenceRaces.MembersNow, Shows, Fold, StateOf, ShownRightly;
    if ShownRightly(StateOf(f), v, u, shown) {
      OneEntry(StateOf(f), v, u, Shows(Members(StateOf(f), v), u), shown);
    }
  }

  /** The fields leave no choice. */
  lemma OneEntry(s: State, v: int, u: int, e: Entry, e': Entry)
    requires ShownRightly(s, v, u, e) && ShownRightly(s, v, u, e')
    ensures e == e'
  {
  }
}
