/**
  The session registry: two maps over the same connections, by connection and by
  identity, under a capacity. Applying an identity, taking a place, giving it
  back and being removed are separate steps, so authentications and closing
  connections interleave freely.
 */
module Registry {
  import opened Wrappers
  import Collections

  /** Who each registered connection is, and which connection each identity has. */
  datatype Places = Places(sessions: map<int, int>, byUser: map<int, int>)

  datatype Added = Refused | Taken(displaced: Option<int>)

  predicate IsFull(p: Places, u: int, max: nat) {
    u !in p.byUser && |p.sessions| >= max
  }

  function Add(p: Places, id: int, u: int, max: nat): (Places, Added) {
    if IsFull(p, u, max) then (p, Refused)
    else if u in p.byUser && p.byUser[u] != id then
      (Places((p.sessions - {p.byUser[u]})[id := u], p.byUser[u := id]), Taken(Some(p.byUser[u])))
    else (Places(p.sessions[id := u], p.byUser[u := id]), Taken(None))
  }

  function Remove(p: Places, id: int, u: int): Places {
    Places(p.sessions - {id}, if u in p.byUser && p.byUser[u] == id then p.byUser - {u} else p.byUser)
  }

  /** Each registered connection is the one its identity has, and the other way round. */
  ghost predicate Paired(p: Places) {
    && (forall id :: id in p.sessions ==> p.sessions[id] in p.byUser && p.byUser[p.sessions[id]] == id)
    && (forall u :: u in p.byUser ==> p.byUser[u] in p.sessions && p.sessions[p.byUser[u]] == u)
  }

  // --- what one connection goes through -------------------------------------

  datatype Phase =
    | Unknown
    | Applied(user: int)
    | TurnedAway(user: int)
    | Joined(user: int)
    | Removed(user: int)
    | Over

  datatype State = State(places: Places, phases: map<int, Phase>, max: nat)

  datatype Action =
    | Open(id: int)
    | Apply(id: int, user: int)
    | Register(id: int)
    | Withdraw(id: int)
    | Deregister(id: int)
    | Close(id: int)

  ghost predicate Enabled(s: State, a: Action) {
    match a
    case Open(id) => id !in s.phases
    case Apply(id, _) => id in s.phases && s.phases[id].Unknown?
    case Register(id) => id in s.phases && s.phases[id].Applied?
    case Withdraw(id) => id in s.phases && (s.phases[id].TurnedAway? || s.phases[id].Removed?)
    case Deregister(id) =>
      id in s.phases && (s.phases[id].Applied? || s.phases[id].TurnedAway? || s.phases[id].Joined?)
    case Close(id) => id in s.phases && (s.phases[id].Unknown? || s.phases[id].Removed?)
  }

  ghost function Next(s: State, a: Action): State
    requires Enabled(s, a)
  {
    match a
    case Open(id) => s.(phases := s.phases[id := Unknown])
    case Apply(id, u) => s.(phases := s.phases[id := Applied(u)])
    case Register(id) =>
      var u := s.phases[id].user;
      var (places, outcome) := Add(s.places, id, u, s.max);
      s.(places := places, phases := s.phases[id := if outcome.Refused? then TurnedAway(u) else Joined(u)])
    case Withdraw(id) => s.(phases := s.phases[id := Unknown])
    case Deregister(id) =>
      var u := s.phases[id].user;
      s.(places := Remove(s.places, id, u), phases := s.phases[id := Removed(u)])
    case Close(id) => s.(phases := s.phases[id := Over])
  }

  ghost predicate Initial(s: State) {
    s.places == Places(map[], map[]) && s.phases == map[]
  }

  /** The maps are a bijection within the capacity, and only connections that joined are in them. */
  ghost predicate Inv(s: State) {
    && Paired(s.places) && |s.places.sessions| <= s.max
    && forall id :: id in s.places.sessions ==> id in s.phases && s.phases[id] == Joined(s.places.sessions[id])
  }

  // --- counting -------------------------------------------------------------

  lemma Counts<K, V>(m: map<K, V>, k: K, v: V)
    ensures |m[k := v]| == |m| + if k in m then 0 else 1
    ensures |m - {k}| == |m| - if k in m then 1 else 0
  {
    assert m[k := v].Keys == m.Keys + {k};
    assert (m - {k}).Keys == m.Keys - {k};
  }

  lemma AddCounts(p: Places, id: int, u: int, max: nat)
    requires Paired(p) && |p.sessions| <= max && (id in p.sessions ==> p.sessions[id] == u)
    ensures |Add(p, id, u, max).0.sessions| <= max
    ensures u in p.byUser ==> |Add(p, id, u, max).0.sessions| == |p.sessions|
  {
    if u in p.byUser && p.byUser[u] != id {
      var prev := p.byUser[u];
      Counts(p.sessions, prev, 0);
      Counts(p.sessions - {prev}, id, u);
    } else {
      Counts(p.sessions, id, u);
    }
  }

  /** Taking a place displaces the identity's own connection or fits under the capacity. */
  lemma AddFacts(p: Places, id: int, u: int, max: nat)
    requires Paired(p) && |p.sessions| <= max && (id in p.sessions ==> p.sessions[id] == u)
    ensures var (p', outcome) := Add(p, id, u, max);
      && Paired(p')
      && (outcome.Refused? <==> IsFull(p, u, max)) && (outcome.Refused? ==> p' == p)
      && (outcome.Taken? ==> id in p'.sessions && p'.sessions[id] == u)
      && (outcome.Taken? ==>
            outcome.displaced == if u in p.byUser && p.byUser[u] != id then Some(p.byUser[u]) else None)
      && (outcome.Taken? ==> forall x :: x in p'.sessions <==>
            x == id || (x in p.sessions && outcome.displaced != Some(x)))
      && (outcome.Taken? ==> forall x :: x in p'.sessions && x != id ==> p'.sessions[x] == p.sessions[x])
  {}

  /** Removing a connection takes its own place only. */
  lemma RemoveFacts(p: Places, id: int, u: int)
    requires Paired(p) && (id in p.sessions ==> p.sessions[id] == u)
    ensures var p' := Remove(p, id, u);
      && Paired(p') && |p'.sessions| <= |p.sessions|
      && (forall x :: x in p'.sessions <==> x in p.sessions && x != id)
      && (forall x :: x in p'.sessions ==> p'.sessions[x] == p.sessions[x])
      && (id !in p.sessions ==> p' == p)
  {
    Counts(p.sessions, id, u);
    if id !in p.sessions {
      Collections.SameMap(p.sessions - {id}, p.sessions);
    }
  }

  // --- whole runs -----------------------------------------------------------

  lemma StepInv(s: State, a: Action)
    requires Inv(s) && Enabled(s, a)
    ensures Inv(Next(s, a))
  {
    match a
    case Register(id) =>
      assert id !in s.places.sessions;
      hide Paired;
      AddFacts(s.places, id, s.phases[id].user, s.max);
      AddCounts(s.places, id, s.phases[id].user, s.max);
      hide Add;
    case Deregister(id) =>
      RemoveFacts(s.places, id, s.phases[id].user);
      hide Remove, Paired;
    case _ =>
  }

  ghost predicate StepAt(states: seq<State>, actions: seq<Action>, k: nat)
    requires k < |actions| == |states| - 1
  {
    Enabled(states[k], actions[k]) && states[k + 1] == Next(states[k], actions[k])
  }

  ghost predicate IsRun(states: seq<State>, actions: seq<Action>) {
    |states| == |actions| + 1 && forall k: nat :: k < |actions| ==> StepAt(states, actions, k)
  }

  /** Under every interleaving the two maps stay a bijection and within the capacity. */
  lemma {:induction false} RegistryStaysPaired(states: seq<State>, actions: seq<Action>, k: nat)
    requires IsRun(states, actions) && Initial(states[0]) && k < |states|
    ensures Inv(states[k])
  {
    if k > 0 {
      RegistryStaysPaired(states, actions, k - 1);
      assert StepAt(states, actions, k - 1);
      hide Inv, Initial;
      StepInv(states[k - 1], actions[k - 1]);
    } else {
      assert |states[0].places.sessions| == 0;
    }
  }

  /** Somebody already connected is never turned away, however full the server is, and takes over their place. */
  lemma ReconnectIsNeverRefused(s: State, id: int)
    requires Inv(s) && Enabled(s, Register(id)) && s.phases[id].user in s.places.byUser
    ensures var s', u := Next(s, Register(id)), s.phases[id].user;
      && s'.phases[id] == Joined(u) && s'.places.byUser[u] == id
      && s.places.byUser[u] !in s'.places.sessions
      && |s'.places.sessions| == |s.places.sessions|
  {
    var u := s.phases[id].user;
    AddFacts(s.places, id, u, s.max);
    AddCounts(s.places, id, u, s.max);
  }

  /** Somebody new is turned away exactly when every place is taken. */
  lemma NewcomerIsRefusedWhenFull(s: State, id: int)
    requires Inv(s) && Enabled(s, Register(id)) && s.phases[id].user !in s.places.byUser
    ensures Next(s, Register(id)).phases[id].TurnedAway? <==> |s.places.sessions| == s.max
  {}

  /** The end of a displaced connection leaves its replacement where it is. */
  lemma DisplacedNeverEvictsReplacement(s: State, id: int)
    requires Inv(s) && Enabled(s, Deregister(id)) && id !in s.places.sessions
    ensures Next(s, Deregister(id)).places == s.places
  {
    RemoveFacts(s.places, id, s.phases[id].user);
  }

  lemma SameCount<K, V, W>(m: map<K, V>, n: map<K, W>)
    requires forall k :: k in m <==> k in n
    ensures |m| == |n|
  {
    assert m.Keys == n.Keys;
  }

  /** An authentication in one go: turned away, or joined, or joined and taken back because it could not be answered. */
  ghost function Authenticated(s: State, id: int, u: int, answered: bool): State
    requires Enabled(s, Apply(id, u))
  {
    var joined := Next(Next(s, Apply(id, u)), Register(id));
    if joined.phases[id].TurnedAway? then Next(joined, Withdraw(id))
    else if answered then joined
    else Next(Next(joined, Deregister(id)), Withdraw(id))
  }

  /** The end of a connection, whichever way it stands. */
  ghost function Ended(s: State, id: int): State
    requires id in s.phases && (s.phases[id].Unknown? || s.phases[id].Joined?)
  {
    Next(if s.phases[id].Joined? then Next(s, Deregister(id)) else s, Close(id))
  }

  lemma AuthenticatedInv(s: State, id: int, u: int, answered: bool)
    requires Inv(s) && Enabled(s, Apply(id, u))
    ensures Inv(Authenticated(s, id, u, answered))
  {
    var s1 := Next(s, Apply(id, u));
    var s2 := Next(s1, Register(id));
    StepInv(s, Apply(id, u));
    StepInv(s1, Register(id));
    hide Inv, Add, Remove;
    if s2.phases[id].TurnedAway? {
      StepInv(s2, Withdraw(id));
    } else if !answered {
      StepInv(s2, Deregister(id));
      StepInv(Next(s2, Deregister(id)), Withdraw(id));
    }
  }

  /**
    Whoever is turned away leaves nothing behind. Whoever was let in and could
    not be answered leaves nothing either, but has displaced their own earlier
    connection for it.
   */
  lemma AuthenticatedFacts(s: State, id: int, u: int, answered: bool)
    requires Inv(s) && Enabled(s, Apply(id, u))
    ensures var s' := Authenticated(s, id, u, answered);
      && (s'.phases[id].Joined? <==> answered && !IsFull(s.places, u, s.max))
      && (IsFull(s.places, u, s.max) ==> s'.places == s.places)
      && (!s'.phases[id].Joined? ==> id !in s'.places.sessions && s'.phases[id].Unknown?)
      && (!answered && !IsFull(s.places, u, s.max) ==> u !in s'.places.byUser)
      && (forall x :: x in s'.places.sessions && x != id ==>
            x in s.places.sessions && s'.places.sessions[x] == s.places.sessions[x])
      && (forall x :: x in s.places.sessions && s.places.sessions[x] != u ==> x in s'.places.sessions)
  {
    var (places, outcome) := Add(s.places, id, u, s.max);
    AddFacts(s.places, id, u, s.max);
    if outcome.Taken? {
      RemoveFacts(places, id, u);
    }
  }

  lemma Rewrote<K, V>(m: map<K, V>, k: K, u: V, v: V, w: V, x: V)
    ensures m[k := u][k := x] == m[k := x]
    ensures m[k := u][k := v][k := x] == m[k := x]
    ensures m[k := u][k := v][k := w][k := x] == m[k := x]
  {}

  /** What an authentication comes to: the places after it, and where the connection stands. */
  lemma AuthenticatedIs(s: State, id: int, u: int, answered: bool)
    requires Enabled(s, Apply(id, u))
    ensures var (places, outcome) := Add(s.places, id, u, s.max);
      Authenticated(s, id, u, answered)
      == if outcome.Refused? then s.(phases := s.phases[id := Unknown])
         else if answered then s.(places := places, phases := s.phases[id := Joined(u)])
         else s.(places := Remove(places, id, u), phases := s.phases[id := Unknown])
  {
    hide Remove;
    Rewrote(s.phases, id, Applied(u), TurnedAway(u), Removed(u), Unknown);
    Rewrote(s.phases, id, Applied(u), Joined(u), Removed(u), Unknown);
    Rewrote(s.phases, id, Applied(u), Applied(u), Applied(u), Joined(u));
  }

  lemma EndedIs(s: State, id: int)
    requires Inv(s) && id in s.phases && (s.phases[id].Unknown? || s.phases[id].Joined?)
    ensures Inv(Ended(s, id))
    ensures Ended(s, id) == s.(
      places := if s.phases[id].Joined? then Remove(s.places, id, s.phases[id].user) else s.places,
      phases := s.phases[id := Over])
  {
    if s.phases[id].Joined? {
      var u := s.phases[id].user;
      Rewrote(s.phases, id, Removed(u), Removed(u), Removed(u), Over);
      StepInv(s, Deregister(id));
      hide Inv, Remove;
      StepInv(Next(s, Deregister(id)), Close(id));
    } else {
      hide Inv;
      StepInv(s, Close(id));
    }
  }

  // --- the hub's own maps ---------------------------------------------------

  class Session {
    const ID: int
    var authed: bool
    var userID: int

    constructor (id: int)
      ensures ID == id && !authed
    {
      ID := id;
      authed, userID := false, 0;
    }

    method ApplyIdentity(u: int)
      modifies this
      ensures authed && userID == u
    {
      authed, userID := true, u;
    }

    method ClearIdentity()
      modifies this
      ensures !authed && userID == 0
    {
      authed, userID := false, 0;
    }
  }

  class Hub {
    var sessions: map<int, Session>
    var byUser: map<int, Session>
    const maxUsers: nat

    // How far every connection has got.
    ghost var phases: map<int, Phase>

    /** Both maps hold connections under their own ids, a connection one object. */
    ghost predicate Indexed()
      reads this`sessions, this`byUser, sessions.Values, byUser.Values
    {
      && (forall id :: id in sessions ==> sessions[id].ID == id)
      && (forall u :: u in byUser ==> byUser[u].userID == u)
      && (forall u :: u in byUser && byUser[u].ID in sessions ==> sessions[byUser[u].ID] == byUser[u])
    }

    ghost function View(): Places
      reads this`sessions, this`byUser, sessions.Values, byUser.Values
    {
      Places(map id | id in sessions :: sessions[id].userID, map u | u in byUser :: byUser[u].ID)
    }

    ghost function Registry(): State
      reads this, sessions.Values, byUser.Values
    {
      State(View(), phases, maxUsers)
    }

    /** What every authentication and every closing connection finds and leaves. */
    ghost predicate Valid()
      reads this, sessions.Values, byUser.Values
    {
      Indexed() && Inv(Registry())
    }

    /** A connection and how far it has got. */
    ghost predicate Tracks(s: Session)
      reads this, sessions.Values, byUser.Values, s
    {
      && (s.ID in sessions ==> sessions[s.ID] == s)
      && s.ID in phases
      && (s.authed <==> phases[s.ID].Joined?)
      && (s.authed ==> phases[s.ID] == Joined(s.userID))
    }

    /** The maps with a connection in its place and, if there is one, the displaced connection out of it. */
    method Place(s: Session, displaced: Option<Session>)
      requires Indexed() && (s.ID in sessions ==> sessions[s.ID] == s)
      requires forall u :: u in byUser ==> byUser[u].ID in sessions && sessions[byUser[u].ID] == byUser[u]
      requires displaced == if s.userID in byUser && byUser[s.userID] != s then Some(byUser[s.userID]) else None
      modifies this`sessions, this`byUser
      ensures Indexed() && s.ID in sessions && sessions[s.ID] == s
      ensures var before := old(View());
        var left := if displaced.Some? then before.sessions - {displaced.value.ID} else before.sessions;
        View() == Places(left[s.ID := s.userID], before.byUser[s.userID := s.ID])
    {
      ghost var before := View();
      var rest := if displaced.Some? then sessions - {displaced.value.ID} else sessions;
      ghost var left := if displaced.Some? then before.sessions - {displaced.value.ID} else before.sessions;
      sessions, byUser := rest[s.ID := s], byUser[s.userID := s];
      Collections.SameMap(View().sessions, left[s.ID := s.userID]);
      Collections.SameMap(View().byUser, before.byUser[s.userID := s.ID]);
    }

    /** What the places say of the maps, and of one connection in them. */
    lemma ViewFacts(s: Session)
      requires Indexed() && Paired(View()) && (s.ID in sessions ==> sessions[s.ID] == s)
      ensures |View().sessions| == |sessions| && forall u :: u in byUser <==> u in View().byUser
      ensures forall u :: u in byUser ==>
        && View().byUser[u] == byUser[u].ID && (byUser[u] == s <==> byUser[u].ID == s.ID)
        && byUser[u].ID in sessions && sessions[byUser[u].ID] == byUser[u]
    {
      forall u | u in byUser
        ensures byUser[u].ID in sessions && sessions[byUser[u].ID] == byUser[u]
      {
        assert u in View().byUser && View().byUser[u] == byUser[u].ID && View().byUser[u] in View().sessions;
      }
      SameCount(View().sessions, sessions);
    }

    /** Takes a place for a connection that has an identity, displacing the one it had. */
    method AddSession(s: Session) returns (displaced: Option<Session>, full: bool)
      requires Indexed() && Paired(View()) && s.authed
      requires s.ID in sessions ==> sessions[s.ID] == s
      modifies this`sessions, this`byUser
      ensures Indexed()
      ensures full ==> sessions == old(sessions) && byUser == old(byUser)
      ensures !full ==> s.ID in sessions && sessions[s.ID] == s
      ensures var (places, outcome) := Add(old(View()), s.ID, s.userID, maxUsers);
        && View() == places && full == outcome.Refused?
        && (outcome.Taken? ==> displaced.Some? == outcome.displaced.Some?)
        && (displaced.Some? ==> outcome.Taken? && Some(displaced.value.ID) == outcome.displaced)
    {
      ViewFacts(s);
      hide Paired, Indexed, View;
      var held := s.userID in byUser;
      if !held && |sessions| >= maxUsers {
        return None, true;
      }
      displaced := None;
      full := false;
      if held && byUser[s.userID] != s {
        displaced := Some(byUser[s.userID]);
      }
      Place(s, displaced);
    }

    /** Safe for a connection that was never added, and for one that was displaced. */
    method RemoveSession(s: Session)
      requires Indexed() && Paired(View())
      requires s.ID in sessions ==> sessions[s.ID] == s
      modifies this`sessions, this`byUser
      ensures Indexed() && View() == Remove(old(View()), s.ID, s.userID) && s.ID !in sessions
    {
      ghost var after := Remove(View(), s.ID, s.userID);
      sessions := sessions - {s.ID};
      if s.userID in byUser && byUser[s.userID] == s {
        byUser := byUser - {s.userID};
      }
      Collections.SameMap(View().sessions, after.sessions);
      Collections.SameMap(View().byUser, after.byUser);
    }

    lemma Unplaced(s: Session)
      requires Indexed() && Paired(View()) && s.ID !in sessions
      ensures s !in sessions.Values && s !in byUser.Values
    {
      forall id | id in sessions
        ensures sessions[id] != s
      {}
      forall u | u in byUser
        ensures byUser[u] != s
      {
        assert u in View().byUser && View().byUser[u] in View().sessions;
      }
    }

    /** What somebody not yet known will come to, as far as the maps go. */
    lemma BeforeAuth(s: Session, u: int, answered: bool)
      requires Valid() && Tracks(s) && phases[s.ID].Unknown?
      ensures Indexed() && Paired(View()) && s.ID !in sessions
      ensures Inv(Authenticated(Registry(), s.ID, u, answered))
      ensures var (places, outcome) := Add(View(), s.ID, u, maxUsers);
        && (outcome.Taken? ==> Paired(places) && Paired(Remove(places, s.ID, u)))
        && (outcome.Refused? ==> places == View())
        && Authenticated(Registry(), s.ID, u, answered)
           == if outcome.Refused? then State(View(), phases[s.ID := Unknown], maxUsers)
              else if answered then State(places, phases[s.ID := Joined(u)], maxUsers)
              else State(Remove(places, s.ID, u), phases[s.ID := Unknown], maxUsers)
    {
      var places := Add(View(), s.ID, u, maxUsers).0;
      assert forall id :: id in sessions ==> id in View().sessions;
      AuthenticatedInv(Registry(), s.ID, u, answered);
      AuthenticatedIs(Registry(), s.ID, u, answered);
      AddFacts(View(), s.ID, u, maxUsers);
      hide Inv, Authenticated, View, Paired, Indexed, Remove;
      if Add(View(), s.ID, u, maxUsers).1.Taken? { RemoveFacts(places, s.ID, u); }
    }

    /** The identity is applied first, because taking a place needs one, and withdrawn again if there is none. */
    method TakePlace(s: Session, u: int) returns (full: bool)
      requires Indexed() && Paired(View()) && s.ID !in sessions
      modifies this`sessions, this`byUser, s
      ensures Indexed() && s.authed == !full
      ensures !full ==> s.userID == u && s.ID in sessions && sessions[s.ID] == s
      ensures full ==> s.ID !in sessions
      ensures var added := Add(old(View()), s.ID, u, maxUsers);
        View() == added.0 && full == added.1.Refused?
    {
      hide Add, View, Paired, Indexed;
      Unplaced(s);
      s.ApplyIdentity(u);
      var displaced;
      displaced, full := AddSession(s);
      if full {
        s.ClearIdentity();
      }
    }

    /** A place taken and given back. */
    method GiveBack(s: Session)
      requires Indexed() && Paired(View()) && s.ID in sessions && sessions[s.ID] == s
      requires Paired(Remove(View(), s.ID, s.userID))
      modifies this`sessions, this`byUser, s
      ensures Indexed() && !s.authed && s.ID !in sessions
      ensures View() == Remove(old(View()), s.ID, old(s.userID))
    {
      hide Remove, View, Paired, Indexed;
      RemoveSession(s);
      Unplaced(s);
      s.ClearIdentity();
    }

    /** The tail of every authentication; `answered` is whether the state snapshot could be made. */
    method FinishAuth(s: Session, u: int, answered: bool) returns (joined: bool)
      requires Valid() && Tracks(s) && phases[s.ID].Unknown?
      modifies this`sessions, this`byUser, this`phases, s
      ensures Valid() && Tracks(s) && joined == s.authed
      ensures Registry() == Authenticated(old(Registry()), s.ID, u, answered)
    {
      hide Inv, Add, Remove, Authenticated, View, Paired, Indexed, Next, IsFull;
      ghost var before := Registry();
      BeforeAuth(s, u, answered);
      var full := TakePlace(s, u);
      if !full && !answered {
        GiveBack(s);
      }
      joined := !full && answered;
      phases := phases[s.ID := if joined then Joined(u) else Unknown];
      assert Registry() == Authenticated(before, s.ID, u, answered);
    }

    /** The end of a connection. */
    method FinishSession(s: Session)
      requires Valid() && Tracks(s) && (phases[s.ID].Unknown? || phases[s.ID].Joined?)
      modifies this`sessions, this`byUser, this`phases
      ensures Valid() && Registry() == Ended(old(Registry()), s.ID)
    {
      ghost var before := Registry();
      EndedIs(before, s.ID);
      assert Paired(View());
      hide Inv, Remove, Ended, Paired, View, Indexed;
      if s.authed {
        RemoveSession(s);
      }
      phases := phases[s.ID := Over];
      assert Registry() == Ended(before, s.ID);
    }
  }
}
