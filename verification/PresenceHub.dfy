/**
  The hub's broadcasts and the handlers that make them, over the sessions they
  send to one after another, each proved to be the step of the Presence module
  when no other handler comes in between.
 */
module PresenceHub {
  import opened Wrappers
  import opened Presence
  import Collections

  /** Part-way through a broadcast: those gone over have heard their word, the others not yet. */
  ghost predicate Told(before: State, sent: map<int, seq<Frame>>, left: set<int>, words: int -> Word) {
    && (forall v :: v in sent <==> v in before.sent)
    && (forall v :: v in before.sent ==>
          sent[v] == if v in before.live && v !in left then Heard(before.sent[v], words(v)) else before.sent[v])
  }

  lemma OneMoreTold(
      before: State, sent: map<int, seq<Frame>>, left: set<int>, words: int -> Word, v: int, frame: Frame)
    requires Told(before, sent, left, words) && v in left && v in before.live && v in before.sent
    requires words(v) == Say(frame)
    ensures v in sent && Told(before, sent[v := sent[v] + [frame]], left - {v}, words)
  {}

  lemma NotTold(before: State, sent: map<int, seq<Frame>>, left: set<int>, words: int -> Word, v: int)
    requires Told(before, sent, left, words) && words(v).Silent?
    ensures Told(before, sent, left - {v}, words)
  {}

  lemma NobodyTold(before: State, words: int -> Word)
    ensures Told(before, before.sent, before.live.Keys, words)
  {}

  lemma AllTold(before: State, sent: map<int, seq<Frame>>, words: int -> Word)
    requires Told(before, sent, {}, words)
    ensures before.(sent := sent) == SendAll(before, words)
  {
    var after := SendAll(before, words).sent;
    forall v
      ensures v in sent <==> v in after
      ensures v in sent ==> sent[v] == after[v]
    {
      assert v in before.live && v in before.sent ==> v !in {};
    }
    Collections.SameMap(sent, after);
  }

  class Hub {
    var profiles: map<int, Profile>
    var registered: set<int>
    var live: map<int, Option<Activity>>
    var sent: map<int, seq<Frame>>

    function State(): State
      reads this
    {
      Presence.State.State(profiles, registered, live, sent)
    }

    ghost predicate Valid()
      reads this
    {
      forall v :: v in live ==> v in sent
    }

    method Send(v: int, f: Frame)
      requires v in sent
      modifies this`sent
      ensures sent == old(sent)[v := old(sent)[v] + [f]]
    {
      sent := sent[v := sent[v] + [f]];
    }

    /** Announces a change to a connected user, by the status everybody last saw. */
    method BroadcastUserPresence(was: string, u: int, e: Entry)
      requires Valid()
      modifies this`sent
      ensures Valid() && State() == SendAll(old(State()), v => PresenceWord(was, u, e, v))
    {
      ghost var before, words := State(), v => PresenceWord(was, u, e, v);
      var hiddenBefore, hiddenNow := HidesPresence(was), HidesPresence(e.status);
      var left := live.Keys;
      while left != {}
        invariant left <= live.Keys && Valid() && Told(before, sent, left, words)
        decreases |left|
      {
        var v := Collections.Pick(left);
        if v == u {
          Send(v, Updated(u, e));
        } else if hiddenNow && hiddenBefore {
          // Saying anything would give away that they are here.
        } else if hiddenNow {
          Send(v, Disconnected(u));
        } else {
          Send(v, Updated(u, MaskUser(v, u, e)));
        }
        left := left - {v};
      }
      AllTold(before, sent, words);
    }

    /** Announces a change somebody else made to a member, here or away. */
    method BroadcastMemberUpdated(u: int, e: Entry)
      requires Valid()
      modifies this`sent
      ensures Valid() && State() == SendAll(old(State()), v => MemberWord(u, e, v))
    {
      ghost var before, words := State(), v => MemberWord(u, e, v);
      NobodyTold(before, words);
      if u in live {
        OneMoreTold(before, sent, live.Keys, words, u, Updated(u, e));
        Send(u, Updated(u, e));
      } else {
        Collections.SameSet(live.Keys - {u}, live.Keys);
      }
      hide Told;
      var left := live.Keys - {u};
      while left != {}
        invariant left <= live.Keys - {u} && Valid() && Told(before, sent, left, words)
        decreases |left|
      {
        var v := Collections.Pick(left);
        OneMoreTold(before, sent, left, words, v, Updated(u, MaskUser(v, u, e)));
        Send(v, Updated(u, MaskUser(v, u, e)));
        left := left - {v};
      }
      AllTold(before, sent, words);
    }

    method BroadcastDisconnected(status: string, u: int)
      requires Valid()
      modifies this`sent
      ensures Valid() && State() == SendAll(old(State()), v => DepartureWord(status, u))
    {
      ghost var before, words := State(), v => DepartureWord(status, u);
      if HidesPresence(status) {
        AllTold(before, sent, words);
        return;
      }
      NobodyTold(before, words);
      hide Told;
      var left := live.Keys;
      while left != {}
        invariant left <= live.Keys && Valid() && Told(before, sent, left, words)
        decreases |left|
      {
        var v := Collections.Pick(left);
        OneMoreTold(before, sent, left, words, v, Disconnected(u));
        Send(v, Disconnected(u));
        left := left - {v};
      }
      AllTold(before, sent, words);
    }

    method BroadcastConnected(u: int, e: Entry)
      requires Valid()
      modifies this`sent
      ensures Valid() && State() == SendAll(old(State()), v => ArrivalWord(u, e, v))
    {
      ghost var before, words := State(), v => ArrivalWord(u, e, v);
      if HidesPresence(e.status) {
        AllTold(before, sent, words);
        return;
      }
      NobodyTold(before, words);
      NotTold(before, sent, live.Keys, words, u);
      hide Told;
      var left := live.Keys - {u};
      while left != {}
        invariant left <= live.Keys - {u} && Valid() && Told(before, sent, left, words)
        decreases |left|
      {
        var v := Collections.Pick(left);
        OneMoreTold(before, sent, left, words, v, Connected(u, MaskUser(v, u, e)));
        Send(v, Connected(u, MaskUser(v, u, e)));
        left := left - {v};
      }
      AllTold(before, sent, words);
    }

    /** The member list one viewer sees: the connected but for hidden guests, then every absent member. */
    method MemberList(viewer: int) returns (users: map<int, Entry>)
      ensures users == Members(State(), viewer)
    {
      users := map[];
      var left := live.Keys;
      while left != {}
        invariant left <= live.Keys
        invariant forall u :: u in users <==> u in live && u !in left && Listed(State(), viewer, u)
        invariant forall u :: u in users ==> users[u] == Seen(State(), viewer, u)
        decreases |left|
      {
        var u := Collections.Pick(left);
        var e := View(State(), u);
        if u == viewer || !HidesPresence(e.status) || u in registered {
          users := users[u := MaskUser(viewer, u, e)];
        }
        left := left - {u};
      }
      left := registered;
      while left != {}
        invariant left <= registered
        invariant forall u :: u in users <==>
          (u in live && Listed(State(), viewer, u)) || (u in registered && u !in live && u !in left)
        invariant forall u :: u in users ==> users[u] == Seen(State(), viewer, u)
        decreases |left|
      {
        var u := Collections.Pick(left);
        if u !in live {
          users := users[u := AWAY];
        }
        left := left - {u};
      }
      ghost var all := Members(State(), viewer);
      forall u
        ensures u in users <==> u in all
        ensures u in users ==> users[u] == all[u]
      {
        assert u in live.Keys + registered <==> u in live || u in registered;
      }
      Collections.SameMap(users, all);
    }

    // --- handlers -----------------------------------------------------------

    /** Signing in with nothing else in between; PresenceRaces puts other handlers between the parts. */
    method FinishAuth(u: int)
      requires Valid() && u in profiles
      modifies this`live, this`sent
      ensures Valid() && State() == Next(old(State()), SignIn(u))
    {
      live := live[u := None];
      var users := MemberList(u);
      ghost var s1 := State();
      // The queue is the new session's own.
      sent := sent[u := [Ready(users)]];
      var view := View(State(), u);
      assert view == View(s1, u);
      hide SendAll;
      BroadcastConnected(u, view);
    }

    /** A fresh snapshot for one viewer, read and queued with nothing else in between. */
    method Resync(u: int)
      requires Valid() && u in live
      modifies this`sent
      ensures Valid() && State() == Next(old(State()), Presence.Resync(u))
    {
      var users := MemberList(u);
      Send(u, Ready(users));
    }

    /** The end of a connection that still holds its identity. */
    method FinishSession(u: int)
      requires Valid() && u in live
      modifies this`live, this`sent
      ensures Valid() && State() == Next(old(State()), SignOut(u))
    {
      hide SendAll;
      var status := ProfileOf(State(), u).status;
      live := live - {u};
      BroadcastDisconnected(status, u);
    }

    method HandleUserUpdate(u: int, profile: Profile)
      requires Valid() && u in live
      modifies this`profiles, this`sent
      ensures Valid() && State() == Next(old(State()), SetProfile(u, profile))
    {
      hide SendAll;
      var was := ProfileOf(State(), u).status;
      profiles := profiles[u := profile];
      BroadcastUserPresence(was, u, View(State(), u));
    }

    method HandleUserActivity(u: int, activity: Option<Activity>)
      requires Valid() && u in live
      modifies this`live, this`sent
      ensures Valid() && State() == Next(old(State()), ReportActivity(u, activity))
    {
      hide SendAll;
      if SameActivity(live[u], activity) {
        return;
      }
      live := live[u := activity];
      var view := View(State(), u);
      BroadcastUserPresence(view.status, u, view);
    }
  }
}
