/**
  The voice plane, one handler a step: where each connected user sits, where they
  have media open, what they share and whose screens they watch, beside the rooms
  that are kept by user.

  A connection displaced by a newer one of the same identity no longer has a seat
  among the live; it finishes on its own some time later. VoiceRaces takes the
  opening of a session apart.
 */
module VoicePlane {
  import opened Wrappers
  import Collections
  import VoiceRooms

  /** The voice half of a session. */
  datatype Seat = Seat(sitting: Option<int>, media: Option<int>, sharing: bool, watching: set<int>)

  const EMPTY_SEAT := Seat(None, None, false, {})

  datatype Mode = ServerHost | ClientHost

  datatype Plane = Plane(live: map<int, Seat>, displaced: seq<(int, Seat)>, rooms: VoiceRooms.Rooms, mode: Mode)

  // --- session methods ------------------------------------------------------

  /** clearVoiceSession: the media session and what it carried. */
  function Cleared(s: Seat, c: int): Seat {
    if s.media == Some(c) then Seat(s.sitting, None, false, {}) else s
  }

  // --- teardown -------------------------------------------------------------

  /** Everybody else with media in the channel stops watching one publisher. */
  function DropViewers(live: map<int, Seat>, c: int, publisher: int): map<int, Seat> {
    map v | v in live ::
      if v != publisher && live[v].media == Some(c) then
        live[v].(watching := live[v].watching - {publisher})
      else live[v]
  }

  function ResetSeats(live: map<int, Seat>, members: seq<int>, c: int): map<int, Seat> {
    map v | v in live :: if v in members then Cleared(live[v], c) else live[v]
  }

  function ResetRoom(p: Plane, c: int): Plane {
    var members := p.rooms.Room(c);
    if members == [] then p
    else p.(rooms := VoiceRooms.Bump(VoiceRooms.Drop(p.rooms, c), c), live := ResetSeats(p.live, members, c))
  }

  /** The leaver's own seat afterwards. */
  function Left(s: Seat, c: int): Seat {
    Cleared(s.(sharing := false, watching := {}), c)
  }

  /** What one departure does to everybody else. */
  function Departed(p: Plane, u: int, s: Seat, c: int): Plane {
    var p1 := if s.sharing then p.(live := DropViewers(p.live, c, u)) else p;
    if s.media != Some(c) then p1
    else
      var p2 := p1.(rooms := VoiceRooms.Detach(p.rooms, u, c));
      if p.mode.ClientHost? && VoiceRooms.WasHost(p.rooms, u, c) then ResetRoom(p2, c) else p2
  }

  /** leaveVoice for a user who is connected. */
  function LeaveVoice(p: Plane, u: int, c: int): Plane
    requires u in p.live
  {
    Departed(p.(live := p.live[u := Left(p.live[u], c)]), u, p.live[u], c)
  }

  function EndScreenShare(p: Plane, u: int, c: int): Plane
    requires u in p.live
  {
    if !p.live[u].sharing then p
    else p.(live := DropViewers(p.live[u := p.live[u].(sharing := false)], c, u))
  }

  // --- handlers -------------------------------------------------------------

  /** Leaves whatever media is open, if any is. */
  function CloseMedia(p: Plane, u: int): Plane
    requires u in p.live
  {
    if p.live[u].media.Some? then LeaveVoice(p, u, p.live[u].media.value) else p
  }

  function Sit(p: Plane, u: int, to: Option<int>): Plane
    requires u in p.live
  {
    p.(live := p.live[u := p.live[u].(sitting := to)])
  }

  function Open(p: Plane, u: int, c: int): Plane
    requires u in p.live
  {
    p.(live := p.live[u := p.live[u].(media := Some(c))], rooms := VoiceRooms.Attach(p.rooms, u, c))
  }

  /** What voice.connect does once the channel is checked; what is open already is left first. */
  function ConnectTo(p: Plane, u: int, c: int, ok: bool): Plane
    requires u in p.live
  {
    var p1 := CloseMedia(p, u);
    if !ok || u !in p1.live || (p1.live[u].media.Some? && p1.live[u].media != Some(c)) then p1
    else Open(p1, u, c)
  }

  /** voice.connect in the channel the user sits in. */
  function Connect(p: Plane, u: int, ok: bool): Plane
    requires u in p.live
  {
    if p.live[u].sitting.None? then p else ConnectTo(p, u, p.live[u].sitting.value, ok)
  }

  function Stream(p: Plane, u: int, active: bool): Plane
    requires u in p.live
  {
    if p.live[u].media.None? then p
    else if !active then EndScreenShare(p, u, p.live[u].media.value)
    else p.(live := p.live[u := p.live[u].(sharing := true)])
  }

  function Watch(p: Plane, v: int, publisher: int, watching: bool): Plane
    requires v in p.live
  {
    var s := p.live[v];
    if publisher == v || s.media.None? || publisher !in p.live || p.live[publisher].media != s.media then p
    else if !watching then p.(live := p.live[v := s.(watching := s.watching - {publisher})])
    else if !p.live[publisher].sharing then p
    else p.(live := p.live[v := s.(watching := s.watching + {publisher})])
  }

  function Move(p: Plane, u: int, to: Option<int>): Plane
    requires u in p.live
  {
    var from := p.live[u].sitting;
    if from == to then p
    else
      var p1 := if from.Some? then LeaveVoice(p, u, from.value) else p;
      if u in p1.live then Sit(p1, u, to) else p1
  }

  function Evict(p: Plane, users: seq<int>): Plane {
    if users == [] then p
    else
      var p1 := Evict(p, users[..|users| - 1]);
      var u := users[|users| - 1];
      if u in p1.live then Move(p1, u, None) else p1
  }

  function ResetRooms(p: Plane, channels: seq<int>): Plane {
    if channels == [] then p else ResetRoom(ResetRooms(p, channels[..|channels| - 1]), channels[|channels| - 1])
  }

  function ForgetChannels(r: VoiceRooms.Rooms, channels: seq<int>): VoiceRooms.Rooms {
    if channels == [] then r
    else VoiceRooms.Forget(ForgetChannels(r, channels[..|channels| - 1]), channels[|channels| - 1])
  }

  /** The rooms of deleted channels go before the people in them do. */
  function DeleteChannels(p: Plane, channels: seq<int>, users: seq<int>): Plane {
    var p1 := ResetRooms(p, channels);
    Evict(p1.(rooms := ForgetChannels(p1.rooms, channels)), users)
  }

  /** A connection of the identity takes its place, displacing the one before. */
  function SignIn(p: Plane, u: int): Plane {
    p.(displaced := if u in p.live then p.displaced + [(u, p.live[u])] else p.displaced,
       live := p.live[u := EMPTY_SEAT])
  }

  /** A live connection ends. */
  function Finish(p: Plane, u: int): Plane
    requires u in p.live
  {
    var p1 := CloseMedia(p, u);
    p1.(live := p1.live - {u})
  }

  /** A displaced connection ends: it repairs its room only if nobody holds the identity any more. */
  function FinishDisplaced(p: Plane, i: nat): Plane
    requires i < |p.displaced|
  {
    var (u, s) := p.displaced[i];
    var p1 := p.(displaced := Collections.Without(p.displaced, i));
    if u in p.live || s.media.None? then p1 else Departed(p1, u, s, s.media.value)
  }

  datatype Action =
    | OnSignIn(user: int)
    | OnFinish(user: int)
    | OnFinishDisplaced(at: nat)
    | OnMove(user: int, to: Option<int>)
    | OnConnect(user: int, ok: bool)
    | OnLeave(user: int)
    | OnStream(user: int, active: bool)
    | OnWatch(user: int, publisher: int, watching: bool)
    | OnRelayGone(user: int)
    | OnEvict(users: seq<int>)
    | OnDeleteChannels(channels: seq<int>, users: seq<int>)
    | OnConfigure(mode: Mode, channels: seq<int>)

  /** Which connections act at all; a deletion evicts everybody in the deleted channels. */
  ghost predicate Enabled(p: Plane, a: Action) {
    match a
    case OnSignIn(_) => true
    case OnFinishDisplaced(i) => i < |p.displaced|
    case OnEvict(_) => true
    case OnDeleteChannels(channels, users) =>
      forall u :: u in p.live && p.live[u].sitting.Some? && p.live[u].sitting.value in channels ==> u in users
    case OnConfigure(_, channels) => forall c :: c in p.rooms.members ==> c in channels
    case _ => a.user in p.live
  }

  ghost function Next(p: Plane, a: Action): Plane
    requires Enabled(p, a)
  {
    match a
    case OnSignIn(u) => SignIn(p, u)
    case OnFinish(u) => Finish(p, u)
    case OnFinishDisplaced(i) => FinishDisplaced(p, i)
    case OnMove(u, to) => Move(p, u, to)
    case OnConnect(u, ok) => Connect(p, u, ok)
    case OnLeave(u) => CloseMedia(p, u)
    case OnStream(u, active) => Stream(p, u, active)
    case OnWatch(v, publisher, watching) => Watch(p, v, publisher, watching)
    // The relay names the channel the user's media is open in.
    case OnRelayGone(u) => CloseMedia(p, u)
    case OnEvict(users) => Evict(p, users)
    case OnDeleteChannels(channels, users) => DeleteChannels(p, channels, users)
    case OnConfigure(mode, channels) => ResetRooms(p.(mode := mode), channels)
  }

  // --- what is kept ---------------------------------------------------------

  /** Media open in a channel means being in its room and sitting in it. */
  ghost predicate Agrees(p: Plane) {
    forall u :: u in p.live && p.live[u].media.Some? ==>
      p.live[u].sitting == p.live[u].media && u in p.rooms.Room(p.live[u].media.value)
  }

  /** Being in a room means having media open in its channel. */
  ghost predicate Backed(p: Plane) {
    forall c, u :: c in p.rooms.members && u in p.rooms.members[c] ==> u in p.live && p.live[u].media == Some(c)
  }

  ghost predicate SeesShare(live: map<int, Seat>, v: int, publisher: int)
    requires v in live
  {
    && publisher in live && publisher != v && live[publisher].sharing
    && live[v].media.Some? && live[publisher].media == live[v].media
  }

  /** Whoever is watched shares, in the same channel; whoever shares has media open. */
  ghost predicate NoDangling(p: Plane) {
    && (forall v, x :: v in p.live && x in p.live[v].watching ==> SeesShare(p.live, v, x))
    && (forall v :: v in p.live && p.live[v].sharing ==> p.live[v].media.Some?)
  }

  ghost predicate Inv(p: Plane) {
    VoiceRooms.Valid(p.rooms) && Agrees(p)
  }

  ghost predicate Whole(p: Plane) {
    Inv(p) && Backed(p) && NoDangling(p) && forall i :: 0 <= i < |p.displaced| ==> p.displaced[i].1.media.None?
  }

  // --- one departure --------------------------------------------------------

  lemma DetachFacts(r: VoiceRooms.Rooms, u: int, c: int)
    requires VoiceRooms.Valid(r)
    ensures var r' := VoiceRooms.Detach(r, u, c);
      && VoiceRooms.Valid(r')
      && (forall x :: x in r'.Room(c) <==> x in r.Room(c) && x != u)
      && (forall d :: d != c ==> r'.Room(d) == r.Room(d))
      && (forall d :: d in r'.members ==> d in r.members)
  {
    if u in r.Room(c) {
      VoiceRooms.DeleteFacts(r.Room(c), Collections.Index(r.Room(c), u));
    }
  }

  lemma AttachFacts(r: VoiceRooms.Rooms, u: int, c: int)
    requires VoiceRooms.Valid(r)
    ensures var r' := VoiceRooms.Attach(r, u, c);
      && VoiceRooms.Valid(r')
      && (forall x :: x in r'.Room(c) <==> x in r.Room(c) || x == u)
      && (forall d :: d != c ==> r'.Room(d) == r.Room(d))
      && (forall d :: d in r'.members ==> d in r.members || d == c)
  {}

  /** After a reset nobody connected has media in the channel, and nobody is in its room. */
  lemma ResetFacts(p: Plane, c: int)
    requires Inv(p)
    ensures var p' := ResetRoom(p, c);
      && Inv(p') && p'.displaced == p.displaced && p'.mode == p.mode
      && p'.rooms.Room(c) == [] && c !in p'.rooms.members
      && (forall d :: d != c ==> p'.rooms.Room(d) == p.rooms.Room(d))
      && (forall d :: d in p'.rooms.members ==> d in p.rooms.members)
      && (forall v :: v in p'.live <==> v in p.live)
      && (forall v :: v in p.live ==> p'.live[v] == Cleared(p.live[v], c))
  {}

  /** Whether a departure takes the whole room with it. */
  ghost predicate Hosted(p: Plane, u: int, s: Seat, c: int) {
    p.mode.ClientHost? && s.media == Some(c) && VoiceRooms.WasHost(p.rooms, u, c)
  }

  /** Somebody else's seat after a departure. */
  ghost function SeatAfter(v: Seat, u: int, s: Seat, c: int, reset: bool): Seat {
    var v1 := if s.sharing && v.media == Some(c) then v.(watching := v.watching - {u}) else v;
    if reset then Cleared(v1, c) else v1
  }

  lemma DepartedFacts(p: Plane, u: int, s: Seat, c: int)
    requires Inv(p) && (u in p.live ==> p.live[u].media.None?)
    ensures var p', reset := Departed(p, u, s, c), Hosted(p, u, s, c);
      && Inv(p') && p'.displaced == p.displaced && p'.mode == p.mode
      && (forall v :: v in p'.live <==> v in p.live)
      && (forall v :: v in p.live && v != u ==> p'.live[v] == SeatAfter(p.live[v], u, s, c, reset))
      && (u in p.live ==> p'.live[u] == p.live[u])
      && (s.media == Some(c) ==> forall x :: x in p'.rooms.Room(c) <==> !reset && x in p.rooms.Room(c) && x != u)
      && (reset ==> p'.rooms.Room(c) == [])
      && (forall d :: s.media != Some(c) || d != c ==> p'.rooms.Room(d) == p.rooms.Room(d))
  {
    var p1 := if s.sharing then p.(live := DropViewers(p.live, c, u)) else p;
    assert Inv(p1);
    if s.media == Some(c) {
      DetachFacts(p.rooms, u, c);
      var p2 := p1.(rooms := VoiceRooms.Detach(p.rooms, u, c));
      assert Inv(p2) by {
        hide VoiceRooms.Valid, VoiceRooms.Detach, DropViewers;
      }
      if Hosted(p, u, s, c) {
        ResetFacts(p2, c);
        hide VoiceRooms.Detach, Inv, ResetRoom;
      } else {
        hide VoiceRooms.Detach, Inv;
      }
    } else {
      hide Inv;
    }
  }

  /** The channel a handler names is the one the media is open in, if any is. */
  ghost predicate Names(p: Plane, u: int, c: int) {
    u in p.live && (p.live[u].media.Some? ==> p.live[u].media == Some(c))
  }

  lemma LeaveFacts(p: Plane, u: int, c: int)
    requires Inv(p) && Names(p, u, c)
    ensures var p', s := LeaveVoice(p, u, c), p.live[u];
      var reset := Hosted(p, u, s, c);
      && Inv(p') && p'.displaced == p.displaced && p'.mode == p.mode
      && (forall v :: v in p'.live <==> v in p.live)
      && p'.live[u] == Seat(s.sitting, None, false, {})
      && (forall v :: v in p.live && v != u ==> p'.live[v] == SeatAfter(p.live[v], u, s, c, reset))
      && (s.media == Some(c) ==> forall x :: x in p'.rooms.Room(c) <==> !reset && x in p.rooms.Room(c) && x != u)
      && (reset ==> p'.rooms.Room(c) == [])
      && (forall d :: s.media != Some(c) || d != c ==> p'.rooms.Room(d) == p.rooms.Room(d))
  {
    var p1 := p.(live := p.live[u := Left(p.live[u], c)]);
    assert Inv(p1);
    hide Inv, Departed;
    DepartedFacts(p1, u, p.live[u], c);
  }

  // --- whole-plane invariant through a departure ----------------------------

  lemma LeaveBacked(p: Plane, u: int, c: int)
    requires Whole(p) && Names(p, u, c)
    ensures Backed(LeaveVoice(p, u, c))
  {
    var p' := LeaveVoice(p, u, c);
    LeaveFacts(p, u, c);
    hide LeaveVoice, VoiceRooms.Valid, VoiceRooms.WasHost, NoDangling;
    forall d, x | d in p'.rooms.members && x in p'.rooms.members[d]
      ensures x in p'.live && p'.live[x].media == Some(d)
    {
      assert x in p'.rooms.Room(d) && x in p.rooms.Room(d);
      assert d in p.rooms.members && x in p.rooms.members[d];
    }
  }

  lemma LeaveNoDangling(p: Plane, u: int, c: int)
    requires Whole(p) && Names(p, u, c)
    ensures NoDangling(LeaveVoice(p, u, c))
  {
    var p' := LeaveVoice(p, u, c);
    LeaveFacts(p, u, c);
    hide LeaveVoice, Inv, Backed, Hosted;
    forall v, x | v in p'.live && x in p'.live[v].watching
      ensures SeesShare(p'.live, v, x)
    {
      assert x in p.live[v].watching && SeesShare(p.live, v, x);
    }
  }

  lemma LeaveWhole(p: Plane, u: int, c: int)
    requires Whole(p) && Names(p, u, c)
    ensures Whole(LeaveVoice(p, u, c))
  {
    LeaveFacts(p, u, c);
    LeaveBacked(p, u, c);
    LeaveNoDangling(p, u, c);
    hide LeaveVoice, Inv, Backed, NoDangling, Hosted;
  }

  // --- every handler --------------------------------------------------------

  /** The statement a handler keeps: agreement always, the rest where nobody was displaced with media open. */
  ghost predicate Kept(p: Plane, p': Plane) {
    Inv(p') && (Whole(p) ==> Whole(p'))
  }

  lemma CloseMediaKeeps(p: Plane, u: int)
    requires Inv(p) && u in p.live
    ensures var p' := CloseMedia(p, u);
      && Kept(p, p') && p'.displaced == p.displaced && p'.mode == p.mode
      && (forall v :: v in p'.live <==> v in p.live)
      && p'.live[u].media.None? && p'.live[u].sitting == p.live[u].sitting
      && (Whole(p) ==> !p'.live[u].sharing && p'.live[u].watching == {})
  {
    hide LeaveVoice, VoiceRooms.Valid, Backed;
    if p.live[u].media.Some? {
      LeaveFacts(p, u, p.live[u].media.value);
      if Whole(p) {
        LeaveWhole(p, u, p.live[u].media.value);
      }
    } else if Whole(p) {
      assert forall x :: x in p.live[u].watching ==> SeesShare(p.live, u, x);
      assert forall x :: x !in p.live[u].watching;
      Collections.SameSet(p.live[u].watching, {});
    }
  }

  lemma FinishWhole(p: Plane, u: int)
    requires Whole(p) && u in p.live && p.live[u].media.None?
    ensures Whole(p.(live := p.live - {u}))
  {
    var p' := p.(live := p.live - {u});
    hide VoiceRooms.Valid;
    assert Backed(p');
    hide Backed;
    forall v, x | v in p'.live && x in p'.live[v].watching
      ensures SeesShare(p'.live, v, x)
    {
      assert SeesShare(p.live, v, x);
    }
  }

  lemma FinishKeeps(p: Plane, u: int)
    requires Inv(p) && u in p.live
    ensures Kept(p, Finish(p, u))
  {
    CloseMediaKeeps(p, u);
    var p1, p' := CloseMedia(p, u), Finish(p, u);
    hide CloseMedia, VoiceRooms.Valid, Whole;
    assert Inv(p');
    if Whole(p) {
      assert Whole(p') by { FinishWhole(p1, u); }
    }
  }

  lemma EndScreenShareKeeps(p: Plane, u: int, c: int)
    requires Inv(p) && u in p.live && p.live[u].media == Some(c)
    ensures Kept(p, EndScreenShare(p, u, c))
  {
    var p' := EndScreenShare(p, u, c);
    hide VoiceRooms.Valid;
    if Whole(p) {
      forall v, x | v in p'.live && x in p'.live[v].watching
        ensures SeesShare(p'.live, v, x)
      {
        assert x in p.live[v].watching && SeesShare(p.live, v, x);
      }
    }
  }

  lemma StreamKeeps(p: Plane, u: int, active: bool)
    requires Inv(p) && u in p.live
    ensures Kept(p, Stream(p, u, active))
  {
    if p.live[u].media.Some? && !active {
      EndScreenShareKeeps(p, u, p.live[u].media.value);
    } else {
      var p' := Stream(p, u, active);
      hide VoiceRooms.Valid;
      if Whole(p) {
        forall v, x | v in p'.live && x in p'.live[v].watching
          ensures SeesShare(p'.live, v, x)
        {
          assert x in p.live[v].watching && SeesShare(p.live, v, x);
        }
      }
    }
  }

  lemma WatchKeeps(p: Plane, w: int, publisher: int, watching: bool)
    requires Inv(p) && w in p.live
    ensures Kept(p, Watch(p, w, publisher, watching))
  {
    var p' := Watch(p, w, publisher, watching);
    hide VoiceRooms.Valid;
    if Whole(p) && p' != p {
      forall v, x | v in p'.live && x in p'.live[v].watching
        ensures SeesShare(p'.live, v, x)
      {
        assert (v == w && x == publisher) || (x in p.live[v].watching && SeesShare(p.live, v, x));
      }
    }
  }

  lemma SitKeeps(p: Plane, u: int, to: Option<int>)
    requires Inv(p) && u in p.live && p.live[u].media.None?
    ensures Kept(p, Sit(p, u, to))
  {
    var p' := Sit(p, u, to);
    hide VoiceRooms.Valid;
    if Whole(p) {
      forall v, x | v in p'.live && x in p'.live[v].watching
        ensures SeesShare(p'.live, v, x)
      {
        assert x in p.live[v].watching && SeesShare(p.live, v, x);
      }
    }
  }

  lemma MoveKeeps(p: Plane, u: int, to: Option<int>)
    requires Inv(p) && u in p.live
    ensures Kept(p, Move(p, u, to))
  {
    var from := p.live[u].sitting;
    if from != to {
      var p1 := if from.Some? then LeaveVoice(p, u, from.value) else p;
      if from.Some? {
        LeaveFacts(p, u, from.value);
        if Whole(p) { LeaveWhole(p, u, from.value); }
      }
      assert Kept(p, p1) && u in p1.live && p1.live[u].media.None? by {
        hide LeaveVoice, VoiceRooms.Valid, Backed, NoDangling;
      }
      hide LeaveVoice, Inv, Whole;
      SitKeeps(p1, u, to);
    }
  }

  lemma {:induction false} EvictKeeps(p: Plane, users: seq<int>)
    requires Inv(p)
    ensures Kept(p, Evict(p, users))
  {
    if users != [] {
      hide Inv, Whole, Move;
      var p1, u := Evict(p, users[..|users| - 1]), users[|users| - 1];
      EvictKeeps(p, users[..|users| - 1]);
      if u in p1.live {
        MoveKeeps(p1, u, None);
      }
    }
  }

  lemma ResetKeeps(p: Plane, c: int)
    requires Inv(p)
    ensures Kept(p, ResetRoom(p, c))
  {
    var p' := ResetRoom(p, c);
    ResetFacts(p, c);
    hide ResetRoom, VoiceRooms.Valid;
    if Whole(p) {
      assert Backed(p') by {
        forall d, x | d in p'.rooms.members && x in p'.rooms.members[d]
          ensures x in p'.live && p'.live[x].media == Some(d)
        {
          assert x in p'.rooms.Room(d) && x in p.rooms.Room(d);
        }
      }
      hide Backed;
      forall v, x | v in p'.live && x in p'.live[v].watching
        ensures SeesShare(p'.live, v, x)
      {
        assert x in p.live[v].watching && SeesShare(p.live, v, x);
      }
    }
  }

  lemma {:induction false} ResetRoomsKeeps(p: Plane, channels: seq<int>)
    requires Inv(p)
    ensures Kept(p, ResetRooms(p, channels))
    ensures forall c :: c in channels ==> ResetRooms(p, channels).rooms.Room(c) == []
  {
    if channels != [] {
      var p1, d := ResetRooms(p, channels[..|channels| - 1]), channels[|channels| - 1];
      ResetRoomsKeeps(p, channels[..|channels| - 1]);
      ResetKeeps(p1, d);
      ResetFacts(p1, d);
      hide Inv, Whole, ResetRoom;
      forall c | c in channels
        ensures ResetRooms(p, channels).rooms.Room(c) == []
      {
        assert c == d || c in channels[..|channels| - 1];
      }
    }
  }

  lemma {:induction false} ForgetFacts(r: VoiceRooms.Rooms, channels: seq<int>)
    requires VoiceRooms.Valid(r) && forall c :: c in channels ==> r.Room(c) == []
    ensures ForgetChannels(r, channels).members == r.members
  {
    if channels != [] {
      var r1, c := ForgetChannels(r, channels[..|channels| - 1]), channels[|channels| - 1];
      ForgetFacts(r, channels[..|channels| - 1]);
      assert c in channels;
      assert r.Room(c) == [] && c !in r.members;
      assert r1.members - {c} == r1.members;
    }
  }

  lemma DeleteKeeps(p: Plane, channels: seq<int>, users: seq<int>)
    requires Inv(p)
    ensures Kept(p, DeleteChannels(p, channels, users))
  {
    var p1 := ResetRooms(p, channels);
    ResetRoomsKeeps(p, channels);
    ForgetFacts(p1.rooms, channels);
    var p2 := p1.(rooms := ForgetChannels(p1.rooms, channels));
    assert Kept(p1, p2) by {
      hide ResetRooms, ForgetChannels;
    }
    hide Inv, Whole, ResetRooms, ForgetChannels;
    EvictKeeps(p2, users);
  }

  /** Replacing a connection breaks no agreement; if it had media open the room goes on holding the identity. */
  lemma SignInKeeps(p: Plane, u: int)
    requires Inv(p)
    ensures Inv(SignIn(p, u))
    ensures Whole(p) && (u in p.live ==> p.live[u].media.None?) ==> Whole(SignIn(p, u))
  {
    var p' := SignIn(p, u);
    hide VoiceRooms.Valid;
    if Whole(p) && (u in p.live ==> p.live[u].media.None?) {
      forall v, x | v in p'.live && x in p'.live[v].watching
        ensures SeesShare(p'.live, v, x)
      {
        assert x in p.live[v].watching && SeesShare(p.live, v, x);
      }
    }
  }

  lemma FinishDisplacedKeeps(p: Plane, i: nat)
    requires Inv(p) && i < |p.displaced|
    ensures Kept(p, FinishDisplaced(p, i))
  {
    var (u, s) := p.displaced[i];
    var p1 := p.(displaced := Collections.Without(p.displaced, i));
    assert Inv(p1);
    if u !in p.live && s.media.Some? {
      DepartedFacts(p1, u, s, s.media.value);
    }
    hide Departed, VoiceRooms.Valid, Backed;
  }

  lemma OpenKeeps(p: Plane, u: int, c: int)
    requires Inv(p) && u in p.live && p.live[u].media.None? && p.live[u].sitting == Some(c)
    ensures Kept(p, Open(p, u, c))
  {
    var p' := Open(p, u, c);
    AttachFacts(p.rooms, u, c);
    hide VoiceRooms.Valid, VoiceRooms.Attach;
    assert Inv(p') by { hide Whole, Backed, NoDangling; }
    if Whole(p) {
      assert Backed(p') by {
        hide NoDangling, Agrees;
        forall d, x | d in p'.rooms.members && x in p'.rooms.members[d]
          ensures x in p'.live && p'.live[x].media == Some(d)
        {
          assert x in p'.rooms.Room(d);
          assert x != u || d != c ==> x in p.rooms.Room(d);
        }
      }
      hide Backed, Agrees;
      forall v, x | v in p'.live && x in p'.live[v].watching
        ensures SeesShare(p'.live, v, x)
      {
        assert x in p.live[v].watching && SeesShare(p.live, v, x);
      }
    }
  }

  lemma ConnectKeeps(p: Plane, u: int, ok: bool)
    requires Inv(p) && u in p.live
    ensures Kept(p, Connect(p, u, ok))
  {
    CloseMediaKeeps(p, u);
    hide CloseMedia, Inv, Whole, Open;
    if p.live[u].sitting.Some? && ok {
      OpenKeeps(CloseMedia(p, u), u, p.live[u].sitting.value);
    }
  }

  lemma StepKeeps(p: Plane, a: Action)
    requires Inv(p) && Enabled(p, a)
    ensures Inv(Next(p, a))
    ensures (a.OnSignIn? && a.user in p.live ==> p.live[a.user].media.None?) ==> Kept(p, Next(p, a))
  {
    match a
    case OnSignIn(u) => SignInKeeps(p, u);
    case OnFinish(u) => FinishKeeps(p, u);
    case OnFinishDisplaced(i) => FinishDisplacedKeeps(p, i);
    case OnMove(u, to) => MoveKeeps(p, u, to);
    case OnConnect(u, ok) => ConnectKeeps(p, u, ok);
    case OnLeave(u) => CloseMediaKeeps(p, u);
    case OnStream(u, active) => StreamKeeps(p, u, active);
    case OnWatch(v, publisher, watching) => WatchKeeps(p, v, publisher, watching);
    case OnRelayGone(u) => CloseMediaKeeps(p, u);
    case OnEvict(users) => EvictKeeps(p, users);
    case OnDeleteChannels(channels, users) => DeleteKeeps(p, channels, users);
    case OnConfigure(mode, channels) =>
      var p1 := p.(mode := mode);
      assert Inv(p1) && (Whole(p) ==> Whole(p1));
      ResetRoomsKeeps(p1, channels);
  }

  // --- whole runs -----------------------------------------------------------

  ghost predicate StepAt(states: seq<Plane>, actions: seq<Action>, k: nat)
    requires k < |actions| == |states| - 1
  {
    Enabled(states[k], actions[k]) && states[k + 1] == Next(states[k], actions[k])
  }

  ghost predicate IsRun(states: seq<Plane>, actions: seq<Action>) {
    |states| == |actions| + 1 && forall k: nat :: k < |actions| ==> StepAt(states, actions, k)
  }

  ghost predicate Initial(p: Plane) {
    p.live == map[] && p.displaced == [] && p.rooms.members == map[]
  }

  /** Nobody signs in again while their earlier connection has media open. */
  ghost predicate NobodyDisplacedInCall(states: seq<Plane>, actions: seq<Action>)
    requires |states| == |actions| + 1
  {
    forall k :: 0 <= k < |actions| && actions[k].OnSignIn? && actions[k].user in states[k].live ==>
      states[k].live[actions[k].user].media.None?
  }

  /** In every reachable state, media open in a channel means being in its room and sitting in it. */
  lemma {:induction false} SessionsAgreeWithRooms(states: seq<Plane>, actions: seq<Action>, k: nat)
    requires IsRun(states, actions) && Initial(states[0]) && k < |states|
    ensures Inv(states[k])
  {
    if k > 0 {
      SessionsAgreeWithRooms(states, actions, k - 1);
      assert StepAt(states, actions, k - 1);
      hide Inv;
      StepKeeps(states[k - 1], actions[k - 1]);
    }
  }

  lemma {:induction false} RunWhole(states: seq<Plane>, actions: seq<Action>, k: nat)
    requires IsRun(states, actions) && Initial(states[0]) && k < |states|
    requires NobodyDisplacedInCall(states, actions)
    ensures Whole(states[k])
  {
    if k > 0 {
      RunWhole(states, actions, k - 1);
      assert StepAt(states, actions, k - 1);
      hide Inv, Backed, NoDangling;
      StepKeeps(states[k - 1], actions[k - 1]);
    }
  }

  /**
    When nobody is displaced in a call, a room's members are exactly those with
    media open in its channel, so nobody is in two rooms.
   */
  lemma RoomsAreThoseInCall(states: seq<Plane>, actions: seq<Action>, k: nat, u: int, c: int)
    requires IsRun(states, actions) && Initial(states[0]) && k < |states|
    requires NobodyDisplacedInCall(states, actions)
    ensures u in states[k].rooms.Room(c) <==> u in states[k].live && states[k].live[u].media == Some(c)
    ensures forall d :: u in states[k].rooms.Room(c) && u in states[k].rooms.Room(d) ==> c == d
  {
    RunWhole(states, actions, k);
    hide VoiceRooms.Valid, NoDangling;
  }

  /** Nor does anybody watch a screen that is not shared in their own channel. */
  lemma NobodyWatchesNothing(states: seq<Plane>, actions: seq<Action>, k: nat, v: int, x: int)
    requires IsRun(states, actions) && Initial(states[0]) && k < |states|
    requires NobodyDisplacedInCall(states, actions)
    requires v in states[k].live && x in states[k].live[v].watching
    ensures SeesShare(states[k].live, v, x)
  {
    RunWhole(states, actions, k);
  }

  /** A client-hosted host leaving ends every call in the channel. */
  lemma HostLeavesNobodyInCall(p: Plane, u: int, c: int)
    requires Inv(p) && u in p.live && p.live[u].media == Some(c)
    requires p.mode.ClientHost? && VoiceRooms.WasHost(p.rooms, u, c)
    ensures var p' := LeaveVoice(p, u, c);
      p'.rooms.Room(c) == [] && forall v :: v in p'.live ==> p'.live[v].media != Some(c)
  {
    var p' := LeaveVoice(p, u, c);
    LeaveFacts(p, u, c);
    hide LeaveVoice, Inv;
  }

  /**
    Displacing somebody in a call leaves them in the room with nothing open. That
    no other step does is StepKeeps' result.
   */
  lemma DisplacementLeavesAGhost(p: Plane, u: int)
    requires Whole(p)
    ensures Whole(SignIn(p, u)) <==> (u in p.live ==> p.live[u].media.None?)
  {
    SignInKeeps(p, u);
    if u in p.live && p.live[u].media.Some? {
      var c, p' := p.live[u].media.value, SignIn(p, u);
      assert c in p'.rooms.members && u in p'.rooms.members[c] && p'.live[u].media.None?;
    }
  }

  /**
    Leaving by the wrong channel's name, as the relay giving up on an old
    transport might: the share ends, but its viewers are told nothing, so the
    viewers are right only if there are none.
   */
  lemma WrongChannelStrandsViewers(p: Plane, u: int, c: int)
    requires Whole(p) && u in p.live && p.live[u].media.Some? && p.live[u].media != Some(c)
    ensures NoDangling(LeaveVoice(p, u, c)) <==> forall v :: v in p.live ==> u !in p.live[v].watching
  {
    var p', live := LeaveVoice(p, u, c), p.live;
    assert forall v :: v in live && v != u && live[v].media == Some(c) ==> u !in live[v].watching by {
      assert forall v :: v in live && u in live[v].watching ==> SeesShare(live, v, u);
    }
    assert forall v :: v in p'.live <==> v in live;
    assert forall v :: v in live && v != u ==>
      p'.live[v].watching == live[v].watching || live[v].media == Some(c);
    assert !p'.live[u].sharing && p'.live[u].watching == {};
    hide Inv, Backed;
    if v :| v in live && u in live[v].watching {
      assert SeesShare(live, v, u);
      assert u in p'.live[v].watching && !SeesShare(p'.live, v, u);
    } else {
      forall v, x | v in p'.live && x in p'.live[v].watching
        ensures SeesShare(p'.live, v, x)
      {
        assert x in live[v].watching && SeesShare(live, v, x);
      }
    }
  }
}
