/** What each voice handler does to the seats, told field by field. */
module VoiceEffects {
  import opened Wrappers
  import opened VoicePlane
  import Collections
  import VoiceRooms

  /** Somebody's seat but for what they watch. */
  predicate SameButWatching(s: Seat, s': Seat) {
    s'.sitting == s.sitting && s'.media == s.media && s'.sharing == s.sharing
  }

  /** Nothing but seats has changed, and nobody has come or gone. */
  ghost predicate OnlySeats(p: Plane, p': Plane) {
    p'.displaced == p.displaced && p'.rooms == p.rooms && p'.mode == p.mode && forall v :: v in p'.live <==> v in p.live
  }

  /**
    Asking to share, in a call, leaves one sharing exactly as asked. A share that
    stops is watched by nobody in the channel afterwards; nobody else's seat,
    media, share or other watching changes, and no room. Outside a call nothing
    happens.
   */
  lemma StreamDoes(p: Plane, u: int, active: bool)
    requires u in p.live
    ensures var p' := Next(p, OnStream(u, active));
      if p.live[u].media == None then p' == p
      else
        && OnlySeats(p, p') && p'.live[u] == p.live[u].(sharing := active)
        && (forall v :: v in p.live && v != u ==> SameButWatching(p.live[v], p'.live[v]))
        && (forall v, x :: v in p.live && v != u ==>
              (x in p'.live[v].watching <==>
                x in p.live[v].watching
                && !(x == u && p.live[u].sharing && !active && p.live[v].media == p.live[u].media)))
  {}

  /** So where everything is right, a share not wanted is one nobody watches. */
  lemma StoppedIsUnwatched(p: Plane, u: int, v: int)
    requires Whole(p) && u in p.live && v in p.live
    ensures u !in Next(p, OnStream(u, false)).live[v].watching
  {
    StreamDoes(p, u, false);
    assert u in p.live[v].watching ==> SeesShare(p.live, v, u);
    hide Stream, VoiceRooms.Valid;
  }

  /** Whether a request to watch, or to stop, is one that can be met. */
  predicate CanWatch(p: Plane, v: int, publisher: int, watching: bool)
    requires v in p.live
  {
    && publisher != v && publisher in p.live && p.live[v].media != None && p.live[publisher].media == p.live[v].media
    && (watching ==> p.live[publisher].sharing)
  }

  /** A request that can be met makes one watch exactly as asked, and any other changes nothing. */
  lemma WatchDoes(p: Plane, v: int, publisher: int, watching: bool)
    requires v in p.live
    ensures var p' := Next(p, OnWatch(v, publisher, watching));
      && OnlySeats(p, p')
      && (forall w :: w in p.live && w != v ==> p'.live[w] == p.live[w])
      && SameButWatching(p.live[v], p'.live[v])
      && (forall x :: x != publisher ==> (x in p'.live[v].watching <==> x in p.live[v].watching))
      && (publisher in p'.live[v].watching <==>
            if CanWatch(p, v, publisher, watching) then watching else publisher in p.live[v].watching)
  {}

  /** Changing seats puts one there, out of any call unless it was no change. */
  lemma MoveDoes(p: Plane, u: int, to: Option<int>)
    requires Inv(p) && u in p.live
    ensures var p' := Next(p, OnMove(u, to));
      && (forall v :: v in p'.live <==> v in p.live) && p'.live[u].sitting == to
      && (if p.live[u].sitting == to then p' == p
          else if p.live[u].sitting == None then p'.live[u] == p.live[u].(sitting := to) && p.live[u].media == None
          else p'.live[u] == Seat(to, None, false, {}))
      && (forall v :: v in p.live && v != u ==> p'.live[v].sitting == p.live[v].sitting)
  {
    var from := p.live[u].sitting;
    if from != to && from.Some? {
      LeaveFacts(p, u, from.value);
      hide LeaveVoice, Inv;
    }
  }

  /**
    A connect that succeeds opens media where its user sits, and puts them in
    that room, last if they were not left over there.
   */
  lemma ConnectDoes(p: Plane, u: int, ok: bool)
    requires Inv(p) && u in p.live
    ensures var p' := Next(p, OnConnect(u, ok));
      && (forall v :: v in p'.live <==> v in p.live) && p'.live[u].sitting == p.live[u].sitting
      && (p.live[u].sitting == None ==> p' == p)
      && (p.live[u].sitting != None ==>
            && p'.live[u].media == (if ok then p.live[u].sitting else None)
            && (ok ==> var room := p'.rooms.Room(p.live[u].sitting.value);
                  u in room && (Whole(p) ==> room[|room| - 1] == u)))
  {
    if p.live[u].sitting.Some? {
      CloseMediaKeeps(p, u);
      CloseLeavesRoom(p, u);
      hide CloseMedia;
    }
  }

  /** Closing one's media takes one out of its room, and where all is right nobody is in a room who has none open. */
  lemma CloseLeavesRoom(p: Plane, u: int)
    requires Inv(p) && u in p.live && p.live[u].sitting.Some?
    ensures Whole(p) ==> u !in CloseMedia(p, u).rooms.Room(p.live[u].sitting.value)
  {
    if p.live[u].media.Some? {
      LeaveFacts(p, u, p.live[u].media.value);
      hide LeaveVoice;
    }
  }

  /** Leaving the call, or the relay's giving up on it, closes the media and keeps the seat. */
  lemma LeaveDoes(p: Plane, u: int, a: Action)
    requires Inv(p) && u in p.live && (a == OnLeave(u) || a == OnRelayGone(u))
    ensures var p' := Next(p, a);
      && (forall v :: v in p'.live <==> v in p.live)
      && p'.live[u].media == None && p'.live[u].sitting == p.live[u].sitting
      && (p.live[u].media == None ==> p' == p)
      && (forall c :: p.live[u].media == Some(c) ==> u !in p'.rooms.Room(c))
  {
    if p.live[u].media.Some? {
      LeaveFacts(p, u, p.live[u].media.value);
      hide LeaveVoice, Inv;
    }
  }

  /** A new connection starts with an empty seat, and the one before is kept as it was until it ends. */
  lemma SignInDoes(p: Plane, u: int)
    ensures var p' := Next(p, OnSignIn(u));
      && u in p'.live && p'.live[u] == Seat(None, None, false, {})
      && (forall v :: v != u ==> (v in p'.live <==> v in p.live) && (v in p.live ==> p'.live[v] == p.live[v]))
      && p'.displaced == p.displaced + (if u in p.live then [(u, p.live[u])] else [])
      && p'.rooms == p.rooms && p'.mode == p.mode
  {}

  /** A connection that ends is gone, and its user from the room of its call. */
  lemma FinishDoes(p: Plane, u: int)
    requires Inv(p) && u in p.live
    ensures var p' := Next(p, OnFinish(u));
      && (forall v :: v in p'.live <==> v in p.live && v != u)
      && (forall c :: p.live[u].media == Some(c) ==> u !in p'.rooms.Room(c))
      && (p.live[u].media == None ==> p'.rooms == p.rooms)
  {
    LeaveDoes(p, u, OnLeave(u));
    hide CloseMedia, Inv;
  }

  /** A displaced connection that ends touches nothing of a newer one's, and with none leaves the room of its call. */
  lemma FinishDisplacedDoes(p: Plane, i: nat)
    requires Inv(p) && i < |p.displaced|
    ensures var p', u, s := Next(p, OnFinishDisplaced(i)), p.displaced[i].0, p.displaced[i].1;
      && p'.displaced == p.displaced[..i] + p.displaced[i + 1..] && p'.mode == p.mode
      && (forall v :: v in p'.live <==> v in p.live)
      && (u in p.live || s.media == None ==> p'.live == p.live && p'.rooms == p.rooms)
      && (forall c :: u !in p.live && s.media == Some(c) ==> u !in p'.rooms.Room(c))
  {
    var (u, s) := p.displaced[i];
    var p1 := p.(displaced := Collections.Without(p.displaced, i));
    assert Inv(p1);
    if u !in p.live && s.media.Some? { DepartedFacts(p1, u, s, s.media.value); }
    hide Departed, Inv;
  }

  /** Whoever is pulled out sits nowhere and is in no call; everybody else sits where they sat. */
  lemma {:induction false} EvictDoes(p: Plane, users: seq<int>)
    requires Inv(p)
    ensures var p' := Next(p, OnEvict(users));
      && (forall v :: v in p'.live <==> v in p.live)
      && (forall v :: v in p.live && v in users ==> p'.live[v].sitting == None && p'.live[v].media == None)
      && (forall v :: v in p.live && v !in users ==> p'.live[v].sitting == p.live[v].sitting)
  {
    if users != [] {
      var n := |users| - 1;
      var p1, u := Evict(p, users[..n]), users[n];
      EvictDoes(p, users[..n]);
      EvictKeeps(p, users[..n]);
      EvictKeeps(p, users);
      if u in p1.live { MoveDoes(p1, u, None); }
      assert forall v :: v in users <==> v in users[..n] || v == u;
      hide VoiceRooms.Valid, Whole, Move;
    }
  }

  /** Resetting a channel nobody is in does nothing; otherwise its room goes and its epoch moves by one. */
  lemma ResetDoes(p: Plane, c: int)
    ensures var p' := ResetRoom(p, c);
      if p.rooms.Room(c) == [] then p' == p
      else p'.rooms.Room(c) == [] && p'.rooms.Epoch(c) == p.rooms.Epoch(c) + 1
  {}

  /** Rooms reset are empty, whoever had media open there has none, and nobody's seat moves. */
  lemma {:induction false} ResetRoomsDo(p: Plane, channels: seq<int>)
    requires Inv(p)
    ensures var p' := ResetRooms(p, channels);
      && Inv(p') && (forall v :: v in p'.live <==> v in p.live) && p'.mode == p.mode && p'.displaced == p.displaced
      && (forall c :: c in channels ==> p'.rooms.Room(c) == [])
      && (forall c :: c !in channels ==> p'.rooms.Room(c) == p.rooms.Room(c))
      && (forall v :: v in p.live ==> p'.live[v].sitting == p.live[v].sitting)
      && (forall v :: v in p.live ==>
            p'.live[v].media ==
              if p.live[v].media.Some? && p.live[v].media.value in channels then None else p.live[v].media)
  {
    if channels != [] {
      var n := |channels| - 1;
      var p1, c := ResetRooms(p, channels[..n]), channels[n];
      ResetRoomsDo(p, channels[..n]);
      ResetFacts(p1, c);
      assert forall d :: d in channels <==> d in channels[..n] || d == c;
      hide Inv, ResetRoom;
    }
  }

  ghost predicate NobodyCallsIn(p: Plane, c: int) {
    forall v :: v in p.live ==> p.live[v].media != Some(c)
  }

  lemma LeaveLeavesRoom(p: Plane, u: int, from: int, c: int)
    requires u in p.live && NobodyCallsIn(p, c)
    ensures var p' := LeaveVoice(p, u, from);
      && p'.rooms.Room(c) == p.rooms.Room(c) && p'.rooms.Epoch(c) == p.rooms.Epoch(c)
      && u in p'.live && NobodyCallsIn(p', c)
  {}

  /** Moving people about leaves alone the room and the epoch of a channel nobody has media open in. */
  lemma MoveLeavesRoom(p: Plane, u: int, to: Option<int>, c: int)
    requires Inv(p) && u in p.live && NobodyCallsIn(p, c)
    ensures var p' := Move(p, u, to);
      p'.rooms.Room(c) == p.rooms.Room(c) && p'.rooms.Epoch(c) == p.rooms.Epoch(c) && NobodyCallsIn(p', c)
  {
    if p.live[u].sitting.Some? { LeaveLeavesRoom(p, u, p.live[u].sitting.value, c); }
    hide Inv, LeaveVoice;
  }

  lemma {:induction false} EvictLeavesRoom(p: Plane, users: seq<int>, c: int)
    requires Inv(p) && NobodyCallsIn(p, c)
    ensures var p' := Evict(p, users);
      p'.rooms.Room(c) == p.rooms.Room(c) && p'.rooms.Epoch(c) == p.rooms.Epoch(c) && NobodyCallsIn(p', c)
  {
    if users != [] {
      var n := |users| - 1;
      var p1, u := Evict(p, users[..n]), users[n];
      EvictLeavesRoom(p, users[..n], c);
      EvictKeeps(p, users[..n]);
      hide Inv, Whole, Move, NobodyCallsIn;
      if u in p1.live { MoveLeavesRoom(p1, u, None, c); }
    }
  }

  lemma {:induction false} ForgetDoes(r: VoiceRooms.Rooms, channels: seq<int>, c: int)
    requires c in channels
    ensures ForgetChannels(r, channels).Room(c) == [] && ForgetChannels(r, channels).Epoch(c) == 0
  {
    var n := |channels| - 1;
    if c != channels[n] {
      assert c in channels[..n];
      ForgetDoes(r, channels[..n], c);
    }
  }

  /** A channel deleted has no room and starts its epochs again. */
  lemma DeletedIsForgotten(p: Plane, channels: seq<int>, users: seq<int>, c: int)
    requires Inv(p) && Enabled(p, OnDeleteChannels(channels, users)) && c in channels
    ensures var p' := Next(p, OnDeleteChannels(channels, users)); p'.rooms.Room(c) == [] && p'.rooms.Epoch(c) == 0
  {
    ResetRoomsDo(p, channels);
    var p1 := ResetRooms(p, channels);
    ForgetFacts(p1.rooms, channels);
    ForgetDoes(p1.rooms, channels, c);
    var p2 := p1.(rooms := ForgetChannels(p1.rooms, channels));
    assert Inv(p2) by { hide ResetRooms, ForgetChannels; }
    assert NobodyCallsIn(p2, c) by { hide Inv, ResetRooms, ForgetChannels; }
    hide Inv, ResetRooms, ForgetChannels, NobodyCallsIn;
    EvictLeavesRoom(p2, users, c);
  }

  /** The channels deleted have no rooms, and whoever sat in them sits nowhere. */
  lemma DeleteDoes(p: Plane, channels: seq<int>, users: seq<int>)
    requires Inv(p) && Enabled(p, OnDeleteChannels(channels, users))
    ensures var p' := Next(p, OnDeleteChannels(channels, users));
      && (forall v :: v in p'.live <==> v in p.live)
      && (forall v :: v in p.live && v in users ==> p'.live[v].sitting == None && p'.live[v].media == None)
      && (forall v :: v in p.live && v !in users ==> p'.live[v].sitting == p.live[v].sitting)
      && (forall v :: v in p.live && p'.live[v].sitting != None ==> p'.live[v].sitting.value !in channels)
  {
    ResetRoomsDo(p, channels);
    var p1 := ResetRooms(p, channels);
    ForgetFacts(p1.rooms, channels);
    var p2 := p1.(rooms := ForgetChannels(p1.rooms, channels));
    assert Inv(p2) by { hide ResetRooms, ForgetChannels; }
    hide Inv, ResetRooms, ForgetChannels;
    EvictDoes(p2, users);
  }

  /** A change of mode ends every call there is. */
  lemma ConfigureDoes(p: Plane, mode: Mode, channels: seq<int>)
    requires Inv(p) && Enabled(p, OnConfigure(mode, channels))
    ensures var p' := Next(p, OnConfigure(mode, channels));
      && p'.mode == mode && (forall v :: v in p'.live <==> v in p.live)
      && (forall c :: p'.rooms.Room(c) == [])
      && (forall v :: v in p.live ==> p'.live[v].media == None && p'.live[v].sitting == p.live[v].sitting)
  {
    var p1 := p.(mode := mode);
    assert Inv(p1);
    ResetRoomsDo(p1, channels);
    hide ResetRooms;
  }
}
