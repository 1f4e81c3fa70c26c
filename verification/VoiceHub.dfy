/**
  The voice plane's own code over sessions and rooms that change in place, each
  method proved to do what the VoicePlane module says of it.
 */
module VoiceHub {
  import opened Wrappers
  import opened VoicePlane
  import Collections
  import VoiceRooms

  /** Everybody's seats once a leaver's own session is closed and nobody watches their screen. */
  function LiveWithout(live: map<int, Seat>, u: int, c: int): map<int, Seat>
    requires u in live
  {
    var left := live[u := Left(live[u], c)];
    if live[u].sharing then VoicePlane.DropViewers(left, c, u) else left
  }

  /** A departure in the order the code takes it: the leaver's session, the room, and perhaps a reset. */
  lemma LeftAlone(p: Plane, u: int, c: int)
    requires u in p.live
    ensures var p1 := p.(live := LiveWithout(p.live, u, c));
      var p2 := p1.(rooms := VoiceRooms.Detach(p.rooms, u, c));
      VoicePlane.LeaveVoice(p, u, c)
      == if p.live[u].media != Some(c) then p1
         else if p.mode.ClientHost? && VoiceRooms.WasHost(p.rooms, u, c) then ResetRoom(p2, c)
         else p2
  {}

  /** The voice half of a connection. */
  class Session {
    const userID: int
    var sitting: Option<int>
    var connected: bool
    var channelID: int
    var sharing: bool
    var watching: set<int>

    function View(): Seat
      reads this
    {
      Seat(sitting, if connected then Some(channelID) else None, sharing, watching)
    }

    constructor (userID: int)
      ensures this.userID == userID && View() == EMPTY_SEAT
    {
      this.userID := userID;
      sitting, connected, channelID, sharing, watching := None, false, 0, false, {};
    }

    method OpenVoiceSession(c: int) returns (ok: bool)
      modifies this`connected, this`channelID
      ensures ok <==> old(View().media).None? || old(View().media) == Some(c)
      ensures View() == if ok then old(View()).(media := Some(c)) else old(View())
    {
      if connected && channelID != c {
        return false;
      }
      channelID, connected := c, true;
      return true;
    }

    /** Ends the session open in the channel, or whichever is open if none is named. */
    method ClearVoiceSession(c: Option<int>) returns (had: bool)
      modifies this`connected, this`channelID, this`sharing, this`watching
      ensures had <==> old(View().media).Some? && (c.None? || old(View().media) == c)
      ensures View() == if had then EMPTY_SEAT.(sitting := old(sitting)) else old(View())
      ensures c.Some? ==> View() == Cleared(old(View()), c.value)
    {
      if !connected {
        return false;
      }
      if c.Some? && channelID != c.value {
        return false;
      }
      channelID, connected := 0, false;
      sharing, watching := false, {};
      return true;
    }

    /** Whose screens the session watches is no part of the share it sends. */
    method SetScreen(active: bool) returns (previous: bool)
      modifies this`sharing
      ensures previous == old(sharing) && View() == old(View()).(sharing := active)
    {
      previous := sharing;
      sharing := active;
    }

    method SetWatching(publisher: int, wanted: bool) returns (changed: bool)
      modifies this`watching
      ensures changed <==> wanted != (publisher in old(watching))
      ensures View() == old(View()).(
        watching := if wanted then old(watching) + {publisher} else old(watching) - {publisher})
    {
      if wanted == (publisher in watching) {
        Collections.SameSet(watching, if wanted then watching + {publisher} else watching - {publisher});
        return false;
      }
      watching := if wanted then watching + {publisher} else watching - {publisher};
      return true;
    }

    method StopWatching() returns (was: set<int>)
      modifies this`watching
      ensures was == old(watching) && View() == old(View()).(watching := {})
    {
      was := watching;
      watching := {};
    }
  }

  class Hub {
    var byUser: map<int, Session>
    var members: map<int, seq<int>>
    var epochs: map<int, int>
    var mode: Mode
    /** What connections already displaced still believe. */
    ghost var displaced: seq<(int, Seat)>

    /** A session is found under its own user, so no two users share one. */
    ghost predicate Valid()
      reads this`byUser, byUser.Values
    {
      forall u :: u in byUser ==> byUser[u].userID == u
    }

    ghost function Live(): map<int, Seat>
      reads this`byUser, byUser.Values
    {
      map u | u in byUser :: byUser[u].View()
    }

    function Rooms(): VoiceRooms.Rooms
      reads this`members, this`epochs
    {
      VoiceRooms.Rooms(members, epochs)
    }

    ghost function View(): Plane
      reads this, byUser.Values
    {
      Plane(Live(), displaced, Rooms(), mode)
    }

    // --- rooms --------------------------------------------------------------

    /** Answers the room as it stands afterwards. */
    method VoiceAttach(u: int, c: int) returns (host: int, epoch: int, count: nat)
      modifies this`members, this`epochs
      ensures Rooms() == VoiceRooms.Attach(old(Rooms()), u, c)
      ensures Rooms().Host(c) == Some(host) && epoch == Rooms().Epoch(c) && count == |Rooms().Room(c)|
    {
      var room := if c in members then members[c] else [];
      if u !in room {
        if |room| == 0 {
          epochs := epochs[c := (if c in epochs then epochs[c] else 0) + 1];
        }
        room := room + [u];
        members := members[c := room];
      }
      return room[0], if c in epochs then epochs[c] else 0, |room|;
    }

    /** Answers whether the host left, who remains, and the epoch there is then. */
    method VoiceDetach(u: int, c: int) returns (wasHost: bool, remaining: seq<int>, epoch: int)
      requires VoiceRooms.Valid(Rooms())
      modifies this`members, this`epochs
      ensures wasHost <==> VoiceRooms.WasHost(old(Rooms()), u, c)
      ensures Rooms() == VoiceRooms.Detach(old(Rooms()), u, c)
      ensures remaining == Rooms().Room(c) && epoch == Rooms().Epoch(c)
    {
      epoch := if c in epochs then epochs[c] else 0;
      if c !in members {
        return false, [], epoch;
      }
      var room := members[c];
      var index := IndexOf(room, u);
      if index == |room| {
        return false, room, epoch;
      }
      wasHost := index == 0;
      remaining := room[..index] + room[index + 1..];
      if wasHost {
        epoch := epoch + 1;
        epochs := epochs[c := epoch];
      }
      if |remaining| == 0 {
        members := members - {c};
      } else {
        members := members[c := remaining];
      }
    }

    method IndexOf(room: seq<int>, u: int) returns (index: nat)
      ensures index == Collections.Index(room, u)
    {
      index := 0;
      while index < |room|
        invariant index <= |room| && Collections.Index(room, u) == index + Collections.Index(room[index..], u)
      {
        if room[index] == u {
          return;
        }
        assert room[index..][1..] == room[index + 1..];
        index := index + 1;
      }
    }

    method VoiceDropRoom(c: int) returns (was: seq<int>)
      requires VoiceRooms.Valid(Rooms())
      modifies this`members
      ensures was == old(Rooms()).Room(c)
      ensures Rooms() == if was == [] then old(Rooms()) else VoiceRooms.Drop(old(Rooms()), c)
    {
      if c !in members {
        return [];
      }
      was := members[c];
      members := members - {c};
    }

    // --- teardown -----------------------------------------------------------

    /** Ends everybody's subscription to one screen. */
    method DropViewers(c: int, publisher: int)
      requires Valid()
      modifies byUser.Values
      ensures Live() == VoicePlane.DropViewers(old(Live()), c, publisher)
      ensures publisher in byUser ==> byUser[publisher].View() == old(byUser[publisher].View())
    {
      ghost var before := Live();
      ghost var after := VoicePlane.DropViewers(before, c, publisher);
      var left := byUser.Keys;
      while left != {}
        invariant left <= byUser.Keys
        invariant forall u :: u in byUser ==> byUser[u].View() == if u in left then before[u] else after[u]
        decreases |left|
      {
        var u := Collections.Pick(left);
        var other := byUser[u];
        assert other.View() == before[u] && forall w :: w in byUser && w != u ==> byUser[w] != other;
        if other.userID != publisher && other.connected && other.channelID == c {
          var changed := other.SetWatching(publisher, false);
        }
        assert other.View() == after[u];
        left := left - {u};
      }
      Collections.SameMap(Live(), after);
    }

    /** Closes the media session of everyone who was in a room and is still connected. */
    method ClearSessions(was: seq<int>, c: int)
      requires Valid()
      modifies byUser.Values
      ensures Live() == ResetSeats(old(Live()), was, c)
    {
      ghost var before := Live();
      ghost var after := ResetSeats(before, was, c);
      for i := 0 to |was|
        invariant forall u :: u in byUser ==> byUser[u].View() == if u in was[..i] then after[u] else before[u]
      {
        var u := was[i];
        assert was[..i + 1] == was[..i] + [u];
        if u in byUser {
          var s := byUser[u];
          assert forall w :: w in byUser && w != u ==> byUser[w] != s;
          var had := s.ClearVoiceSession(Some(c));
          assert s.View() == after[u];
        }
      }
      assert was[..|was|] == was;
      assert forall u :: u in byUser && u !in was ==> after[u] == before[u];
      forall u | u in byUser
        ensures Live()[u] == after[u]
      {
        assert byUser[u].View() == if u in was then after[u] else before[u];
      }
      Collections.SameMap(Live(), after);
    }

    /** Empties a room and asks everyone in it to start again. */
    method ResetVoiceRoom(c: int)
      requires Valid() && VoiceRooms.Valid(Rooms())
      modifies byUser.Values, this`members, this`epochs
      ensures View() == ResetRoom(old(View()), c)
    {
      hide VoiceRooms.Valid;
      var was := VoiceDropRoom(c);
      if |was| == 0 {
        return;
      }
      epochs := epochs[c := (if c in epochs then epochs[c] else 0) + 1];
      ClearSessions(was, c);
    }

    method EndScreenShare(u: int, c: int)
      requires Valid() && u in byUser
      modifies byUser.Values
      ensures View() == VoicePlane.EndScreenShare(old(View()), u, c)
    {
      ghost var before := Live();
      var s := byUser[u];
      assert forall w :: w in byUser && w != u ==> byUser[w] != s;
      var previous := s.SetScreen(false);
      Collections.SameMap(Live(), before[u := before[u].(sharing := false)]);
      if !previous {
        Collections.SameMap(Live(), before);
        return;
      }
      DropViewers(c, u);
    }

    /** The leaver's own session, once the screens are seen to. */
    method CloseSession(u: int, c: int) returns (had: bool)
      requires Valid() && u in byUser
      modifies byUser.Values
      ensures had <==> old(Live())[u].media == Some(c)
      ensures Live() == LiveWithout(old(Live()), u, c)
    {
      ghost var before := Live();
      EndScreenShare(u, c);
      ghost var between := Live();
      var s := byUser[u];
      assert forall w :: w in byUser && w != u ==> byUser[w] != s;
      var stopped := s.StopWatching();
      had := s.ClearVoiceSession(Some(c));
      Collections.SameMap(Live(), LiveWithout(before, u, c));
    }

    /** The single exit from a media session, safe for a session that has none. */
    method LeaveVoice(u: int, c: int)
      requires Valid() && VoiceRooms.Valid(Rooms()) && u in byUser
      modifies byUser.Values, this`members, this`epochs
      ensures View() == VoicePlane.LeaveVoice(old(View()), u, c)
    {
      DetachFacts(Rooms(), u, c);
      LeftAlone(View(), u, c);
      hide LiveWithout, VoicePlane.LeaveVoice, ResetRoom, VoiceRooms.Detach, VoiceRooms.Valid, VoiceRooms.WasHost;
      var had := CloseSession(u, c);
      if !had {
        return;
      }
      var wasHost, _, _ := VoiceDetach(u, c);
      if mode != ClientHost || !wasHost {
        return;
      }
      ResetVoiceRoom(c);
    }

    // --- handlers -----------------------------------------------------------

    /** Between handlers: the plane's invariant, and a session under each user of its own. */
    ghost predicate Ready()
      reads this, byUser.Values
    {
      Valid() && Inv(View())
    }

    method SetSitting(u: int, to: Option<int>)
      requires Valid() && u in byUser
      modifies byUser.Values
      ensures View() == Sit(old(View()), u, to)
    {
      ghost var after := Sit(View(), u, to).live;
      var s := byUser[u];
      assert forall w :: w in byUser && w != u ==> byUser[w] != s;
      s.sitting := to;
      Collections.SameMap(Live(), after);
    }

    method HandleVoiceLeave(u: int)
      requires Ready() && u in byUser
      modifies byUser.Values, this`members, this`epochs
      ensures Ready() && View() == Next(old(View()), OnLeave(u))
    {
      StepKeeps(View(), OnLeave(u));
      hide Inv, VoicePlane.LeaveVoice;
      assert VoiceRooms.Valid(Rooms()) by { RoomsValid(View()); }
      var s := byUser[u];
      if s.connected {
        LeaveVoice(u, s.channelID);
      }
    }

    method HandleUserMove(u: int, to: Option<int>)
      requires Ready() && u in byUser
      modifies byUser.Values, this`members, this`epochs
      ensures Ready() && View() == Next(old(View()), OnMove(u, to))
    {
      StepKeeps(View(), OnMove(u, to));
      hide Inv, VoicePlane.LeaveVoice;
      assert VoiceRooms.Valid(Rooms()) by { RoomsValid(View()); }
      var from := byUser[u].sitting;
      if from == to {
        return;
      }
      if from.Some? {
        LeaveVoice(u, from.value);
      }
      SetSitting(u, to);
    }

    /** Opens a session and takes a place in the room, unless one is open elsewhere. */
    method OpenSession(u: int, c: int)
      requires Valid() && u in byUser
      modifies byUser.Values, this`members, this`epochs
      ensures View() == if Live()[u].media == Some(c) then Open(old(View()), u, c) else old(View())
      ensures Live()[u].media == Some(c) <==> old(Live()[u].media).None? || old(Live()[u].media) == Some(c)
    {
      hide VoiceRooms.Attach;
      ghost var before := Live();
      var s := byUser[u];
      assert forall w :: w in byUser && w != u ==> byUser[w] != s;
      var settled := s.OpenVoiceSession(c);
      if !settled {
        Collections.SameMap(Live(), before);
        return;
      }
      Collections.SameMap(Live(), before[u := before[u].(media := Some(c))]);
      var _, _, _ := VoiceAttach(u, c);
    }

    method HandleVoiceConnect(u: int, ok: bool)
      requires Ready() && u in byUser
      modifies byUser.Values, this`members, this`epochs
      ensures Ready() && View() == Next(old(View()), OnConnect(u, ok))
    {
      StepKeeps(View(), OnConnect(u, ok));
      ghost var before := View();
      hide Inv, VoicePlane.LeaveVoice, VoiceRooms.Attach;
      assert VoiceRooms.Valid(Rooms()) by { RoomsValid(View()); }
      var s := byUser[u];
      if s.sitting.None? {
        return;
      }
      var c := s.sitting.value;
      if s.connected {
        LeaveVoice(u, s.channelID);
      }
      assert View() == CloseMedia(before, u);
      hide CloseMedia, Open;
      if !ok {
        return;
      }
      OpenSession(u, c);
    }

    method HandleVoiceStream(u: int, active: bool)
      requires Ready() && u in byUser
      modifies byUser.Values
      ensures Ready() && View() == Next(old(View()), OnStream(u, active))
    {
      StepKeeps(View(), OnStream(u, active));
      ghost var before := Live();
      hide Inv, VoicePlane.EndScreenShare;
      var s := byUser[u];
      if !s.connected {
        return;
      }
      if !active {
        EndScreenShare(u, s.channelID);
        return;
      }
      assert forall w :: w in byUser && w != u ==> byUser[w] != s;
      var previous := s.SetScreen(true);
      Collections.SameMap(Live(), before[u := before[u].(sharing := true)]);
    }

    method HandleVoiceWatch(v: int, publisher: int, wanted: bool)
      requires Ready() && v in byUser
      modifies byUser.Values
      ensures Ready() && View() == Next(old(View()), OnWatch(v, publisher, wanted))
    {
      StepKeeps(View(), OnWatch(v, publisher, wanted));
      ghost var before := View();
      hide Inv;
      var s := byUser[v];
      if publisher == v || !s.connected || publisher !in byUser {
        return;
      }
      var target := byUser[publisher];
      if !target.connected || target.channelID != s.channelID {
        return;
      }
      if wanted && !target.sharing {
        return;
      }
      assert forall w :: w in byUser && w != v ==> byUser[w] != s;
      var changed := s.SetWatching(publisher, wanted);
      Collections.SameMap(Live(), Watch(before, v, publisher, wanted).live);
    }

    /** A connection that still holds its identity ends. */
    method FinishSession(u: int)
      requires Ready() && u in byUser
      modifies byUser.Values, this`members, this`epochs, this`byUser
      ensures Ready() && View() == Next(old(View()), OnFinish(u))
    {
      StepKeeps(View(), OnFinish(u));
      ghost var before := View();
      HandleVoiceLeave(u);
      hide Inv, CloseMedia;
      ghost var between := Live();
      byUser := byUser - {u};
      Collections.SameMap(Live(), between - {u});
    }

    /** Pulls people out of the channels they sit in, one session after another. */
    method EvictUsers(users: seq<int>)
      requires Ready()
      modifies byUser.Values, this`members, this`epochs
      ensures Ready() && View() == Next(old(View()), OnEvict(users))
    {
      ghost var before := View();
      hide Inv, Move;
      for i := 0 to |users|
        invariant Ready() && View() == Evict(before, users[..i])
      {
        assert users[..i + 1][..i] == users[..i];
        if users[i] in byUser {
          HandleUserMove(users[i], None);
        }
      }
      assert users[..|users|] == users;
    }

    /** Starts every room over. */
    method ResetAllVoice(channels: seq<int>)
      requires Ready()
      modifies byUser.Values, this`members, this`epochs
      ensures Ready() && View() == ResetRooms(old(View()), channels)
    {
      ghost var before := View();
      hide Inv, ResetRoom;
      for i := 0 to |channels|
        invariant Ready() && View() == ResetRooms(before, channels[..i])
      {
        assert channels[..i + 1][..i] == channels[..i];
        ResetKeeps(View(), channels[i]);
        RoomsValid(View());
        ResetVoiceRoom(channels[i]);
      }
      assert channels[..|channels|] == channels;
    }
  }

  lemma RoomsValid(p: Plane)
    requires Inv(p)
    ensures VoiceRooms.Valid(p.rooms)
  {}
}
