/**
  Voice rooms: who has media up in each channel, in arrival order, and the epoch
  that moves with every election. Each critical section under voiceMu is one
  step, so a run of steps is any interleaving of the handlers.
 */
module VoiceRooms {
  import opened Wrappers
  import opened Collections

  /** A channel has a room only while somebody is in it; its epoch outlives the room. */
  datatype Rooms = Rooms(members: map<int, seq<int>>, epochs: map<int, int>)
  {
    function Room(c: int): seq<int> {
      if c in members then members[c] else []
    }

    function Epoch(c: int): int {
      if c in epochs then epochs[c] else 0
    }

    /** The first to have arrived. */
    function Host(c: int): Option<int> {
      if Room(c) == [] then None else Some(Room(c)[0])
    }
  }

  ghost predicate Valid(r: Rooms) {
    forall c :: c in r.members ==> r.members[c] != [] && Distinct(r.members[c])
  }

  // --- the critical sections ------------------------------------------------

  function Bump(r: Rooms, c: int): Rooms {
    r.(epochs := r.epochs[c := r.Epoch(c) + 1])
  }

  /** The first to arrive in an empty channel is elected, and the epoch moves. */
  function Attach(r: Rooms, u: int, c: int): Rooms {
    if u in r.Room(c) then r
    else
      var r1 := if r.Room(c) == [] then Bump(r, c) else r;
      r1.(members := r.members[c := r.Room(c) + [u]])
  }

  function WithRoom(r: Rooms, c: int, room: seq<int>): Rooms {
    r.(members := if room == [] then r.members - {c} else r.members[c := room])
  }

  predicate WasHost(r: Rooms, u: int, c: int) {
    r.Host(c) == Some(u)
  }

  function Detach(r: Rooms, u: int, c: int): Rooms {
    if u !in r.Room(c) then r
    else
      var r1 := if WasHost(r, u, c) then Bump(r, c) else r;
      WithRoom(r1, c, Without(r.Room(c), Index(r.Room(c), u)))
  }

  function Drop(r: Rooms, c: int): Rooms {
    r.(members := r.members - {c})
  }

  /** Forgets a channel that no longer exists, epoch and all. */
  function Forget(r: Rooms, c: int): Rooms {
    Rooms(r.members - {c}, r.epochs - {c})
  }

  datatype Action =
    | Arrive(user: int, channel: int)
    | Depart(user: int, channel: int)
    | Empty(channel: int)
    | Elect(channel: int)
    | Unlearn(channel: int)

  function Next(r: Rooms, a: Action): Rooms {
    match a
    case Arrive(u, c) => Attach(r, u, c)
    case Depart(u, c) => Detach(r, u, c)
    case Empty(c) => Drop(r, c)
    case Elect(c) => Bump(r, c)
    case Unlearn(c) => Forget(r, c)
  }

  // --- what each section does, room by room ---------------------------------

  /** The channel's room and epoch as given, and every other channel's as they were. */
  ghost predicate Becomes(r: Rooms, r': Rooms, c: int, room: seq<int>, epoch: int) {
    && r'.Room(c) == room && r'.Epoch(c) == epoch
    && forall d :: d != c ==> r'.Room(d) == r.Room(d) && r'.Epoch(d) == r.Epoch(d)
  }

  /** Whoever arrives goes last; the first to is host, and the epoch moves by one. */
  lemma ArriveDoes(r: Rooms, u: int, c: int)
    requires Valid(r)
    ensures var room := r.Room(c);
      if u in room then Next(r, Arrive(u, c)) == r
      else Becomes(r, Next(r, Arrive(u, c)), c, room + [u], r.Epoch(c) + if room == [] then 1 else 0)
  {}

  /** Whoever departs leaves the others as they stood; the epoch moves by one if it was the host. */
  lemma DepartDoes(r: Rooms, u: int, c: int, i: nat)
    requires Valid(r) && i < |r.Room(c)| && r.Room(c)[i] == u
    ensures var room := r.Room(c);
      Becomes(r, Next(r, Depart(u, c)), c, room[..i] + room[i + 1..], r.Epoch(c) + if i == 0 then 1 else 0)
  {
    IndexOfElement(r.Room(c), i);
  }

  lemma DepartOfNobody(r: Rooms, u: int, c: int)
    requires u !in r.Room(c)
    ensures Next(r, Depart(u, c)) == r
  {}

  /** Emptying keeps the epoch, electing moves it by one and nobody, forgetting starts it again. */
  lemma OthersDo(r: Rooms, c: int)
    ensures Becomes(r, Next(r, Empty(c)), c, [], r.Epoch(c))
    ensures Becomes(r, Next(r, Elect(c)), c, r.Room(c), r.Epoch(c) + 1)
    ensures Becomes(r, Next(r, Unlearn(c)), c, [], 0)
  {}

  // --- what one section does to one room ------------------------------------

  /** Whoever was there stays in order, and only the end of the line grows. */
  ghost predicate KeepsOrder(room: seq<int>, room': seq<int>) {
    forall i, j :: 0 <= i < j < |room'| && room'[j] in room ==>
      room'[i] in room && Index(room, room'[i]) < Index(room, room'[j])
  }

  /** A later moment of one channel: a number already given to a host stays with that host. */
  ghost predicate Later(r: Rooms, r': Rooms, c: int) {
    && r.Epoch(c) <= r'.Epoch(c)
    && (r'.Epoch(c) == r.Epoch(c) && r'.Room(c) != [] ==> r'.Host(c) == r.Host(c))
  }

  lemma DeleteFacts(s: seq<int>, i: nat)
    requires i < |s| && Distinct(s)
    ensures Distinct(Without(s, i)) && s[i] !in Without(s, i)
    ensures forall x :: x in Without(s, i) <==> x in s && x != s[i]
  {
    var t := Without(s, i);
    assert forall k :: 0 <= k < |t| ==> t[k] == if k < i then s[k] else s[k + 1];
    forall x | x in s && x != s[i]
      ensures x in t
    {
      var k := Index(s, x);
      assert t[if k < i then k else k - 1] == x;
    }
  }

  lemma AttachKeepsOrder(r: Rooms, u: int, c: int)
    requires Valid(r)
    ensures KeepsOrder(r.Room(c), Attach(r, u, c).Room(c))
  {
    var room, room' := r.Room(c), Attach(r, u, c).Room(c);
    forall i: nat, j: nat | i < j < |room'| && room'[j] in room
      ensures room'[i] in room && Index(room, room'[i]) < Index(room, room'[j])
    {
      assert j < |room|;
      IndexOfElement(room, i);
      IndexOfElement(room, j);
    }
  }

  lemma DetachKeepsOrder(r: Rooms, u: int, c: int)
    requires Valid(r)
    ensures KeepsOrder(r.Room(c), Detach(r, u, c).Room(c))
  {
    var room, room' := r.Room(c), Detach(r, u, c).Room(c);
    var k := Index(room, u);
    forall i: nat, j: nat | i < j < |room'| && room'[j] in room
      ensures room'[i] in room && Index(room, room'[i]) < Index(room, room'[j])
    {
      var i', j' := if k < |room| && i >= k then i + 1 else i, if k < |room| && j >= k then j + 1 else j;
      assert room'[i] == room[i'] && room'[j] == room[j'];
      IndexOfElement(room, i');
      IndexOfElement(room, j');
    }
  }

  lemma StepKeepsOrder(r: Rooms, a: Action, c: int)
    requires Valid(r)
    ensures KeepsOrder(r.Room(c), Next(r, a).Room(c))
  {
    if a.Arrive? && a.channel == c {
      AttachKeepsOrder(r, a.user, c);
    } else if a.Depart? && a.channel == c {
      DetachKeepsOrder(r, a.user, c);
    } else if Next(r, a).Room(c) == r.Room(c) {
      var room := r.Room(c);
      forall i: nat, j: nat | i < j < |room|
        ensures Index(room, room[i]) < Index(room, room[j])
      {
        IndexOfElement(room, i);
        IndexOfElement(room, j);
      }
    }
  }

  /** Stored rooms stay non-empty and free of duplicates. */
  lemma StepValid(r: Rooms, a: Action)
    requires Valid(r)
    ensures Valid(Next(r, a))
  {
    if a.Depart? && a.user in r.Room(a.channel) {
      DeleteFacts(r.Room(a.channel), Index(r.Room(a.channel), a.user));
    }
  }

  lemma StepLater(r: Rooms, a: Action, c: int)
    requires Valid(r) && a != Unlearn(c)
    ensures Later(r, Next(r, a), c)
  {}

  // --- whole runs -----------------------------------------------------------

  ghost predicate StepAt(states: seq<Rooms>, actions: seq<Action>, k: nat)
    requires k < |actions| == |states| - 1
  {
    states[k + 1] == Next(states[k], actions[k])
  }

  ghost predicate IsRun(states: seq<Rooms>, actions: seq<Action>) {
    |states| == |actions| + 1 && forall k: nat :: k < |actions| ==> StepAt(states, actions, k)
  }

  lemma {:induction false} RunValid(states: seq<Rooms>, actions: seq<Action>, k: nat)
    requires IsRun(states, actions) && Valid(states[0]) && k < |states|
    ensures Valid(states[k])
  {
    if k > 0 {
      RunValid(states, actions, k - 1);
      assert StepAt(states, actions, k - 1);
      StepValid(states[k - 1], actions[k - 1]);
    }
  }

  lemma {:induction false} RunLater(states: seq<Rooms>, actions: seq<Action>, c: int, i: nat, j: nat)
    requires IsRun(states, actions) && Valid(states[0]) && i <= j < |states|
    requires Unlearn(c) !in actions
    ensures Later(states[i], states[j], c)
    decreases j
  {
    if i < j {
      RunLater(states, actions, c, i, j - 1);
      RunValid(states, actions, j - 1);
      assert actions[j - 1] in actions && StepAt(states, actions, j - 1);
      StepLater(states[j - 1], actions[j - 1], c);
    }
  }

  /**
    While a channel is not deleted its epoch never decreases, and no epoch
    number belongs to two hosts.
   */
  lemma OneHostPerEpoch(states: seq<Rooms>, actions: seq<Action>, c: int, i: nat, j: nat)
    requires IsRun(states, actions) && Valid(states[0]) && i <= j < |states|
    requires Unlearn(c) !in actions
    ensures states[i].Epoch(c) <= states[j].Epoch(c)
    ensures states[i].Host(c).Some? && states[j].Host(c).Some? && states[i].Host(c) != states[j].Host(c) ==>
      states[i].Epoch(c) < states[j].Epoch(c)
  {
    RunLater(states, actions, c, i, j);
  }

  /** In the room without a break from one moment to another. */
  ghost predicate Throughout(states: seq<Rooms>, c: int, u: int, i: nat, j: nat)
    requires i <= j < |states|
    decreases j
  {
    u in states[j].Room(c) && (i < j ==> Throughout(states, c, u, i, j - 1))
  }

  ghost predicate Ahead(room: seq<int>, h: int, v: int) {
    h in room && Index(room, h) <= Index(room, v)
  }

  lemma AheadBefore(room: seq<int>, room': seq<int>, h: int, v: int)
    requires KeepsOrder(room, room') && Ahead(room', h, v) && v in room' && v in room
    ensures Ahead(room, h, v)
  {
    hide Index;
    assert room'[Index(room', h)] == h && room'[Index(room', v)] == v;
  }

  lemma AheadOneStepBefore(states: seq<Rooms>, actions: seq<Action>, c: int, h: int, v: int, k: nat)
    requires IsRun(states, actions) && Valid(states[0]) && k < |actions|
    requires Ahead(states[k + 1].Room(c), h, v) && v in states[k + 1].Room(c) && v in states[k].Room(c)
    ensures Ahead(states[k].Room(c), h, v)
  {
    RunValid(states, actions, k);
    assert StepAt(states, actions, k);
    var r, a := states[k], actions[k];
    hide IsRun, Ahead, KeepsOrder, Valid;
    StepKeepsOrder(r, a, c);
    AheadBefore(r.Room(c), Next(r, a).Room(c), h, v);
  }

  lemma {:induction false} AheadThroughout(
      states: seq<Rooms>, actions: seq<Action>, c: int, h: int, v: int, i: nat, j: nat)
    requires IsRun(states, actions) && Valid(states[0]) && i <= j < |states|
    requires Throughout(states, c, v, i, j) && Ahead(states[j].Room(c), h, v)
    ensures Throughout(states, c, h, i, j)
    decreases j
  {
    assert h in states[j].Room(c);
    if i < j {
      assert v in states[j].Room(c) && v in states[j - 1].Room(c);
      assert Throughout(states, c, v, i, j - 1);
      hide IsRun, Ahead, Valid, Rooms.Room;
      AheadOneStepBefore(states, actions, c, h, v, j - 1);
      AheadThroughout(states, actions, c, h, v, i, j - 1);
    }
  }

  /** The host is the member present longest: whoever has been there all along, the host has too. */
  lemma HostPresentLongest(states: seq<Rooms>, actions: seq<Action>, c: int, v: int, i: nat, j: nat)
    requires IsRun(states, actions) && Valid(states[0]) && i <= j < |states|
    requires Throughout(states, c, v, i, j)
    ensures states[j].Host(c).Some? && Throughout(states, c, states[j].Host(c).value, i, j)
  {
    var room := states[j].Room(c);
    assert v in states[j].Room(c);
    assert Index(room, room[0]) == 0;
    AheadThroughout(states, actions, c, room[0], v, i, j);
  }
}
