/**
  Opening a voice session with other handlers between the check that the user sits
  in the channel and the opening there. A connection that ends or is displaced
  takes its unfinished opening with it.
 */
module VoiceRaces {
  import opened Wrappers
  import opened VoicePlane
  import Collections
  import VoiceRooms

  /** An unfinished opening: the channel checked, and whether its user has been reseated since. */
  datatype Unfinished = Unfinished(channel: int, moved: bool)

  datatype Board = Board(plane: Plane, checked: map<int, Unfinished>)

  datatype Step =
    | Check(user: int)
    | Opening(user: int, ok: bool)
    | Do(action: VoicePlane.Action)

  /** Whether a handler gives somebody another seat, or none. */
  predicate Reseats(a: VoicePlane.Action, u: int) {
    match a
    case OnMove(x, _) => x == u
    case OnEvict(users) => u in users
    case OnDeleteChannels(_, users) => u in users
    case _ => false
  }

  predicate Ends(a: VoicePlane.Action, u: int) {
    (a.OnSignIn? || a.OnFinish?) && a.user == u
  }

  ghost predicate Possible(b: Board, m: Step) {
    match m
    case Check(u) => u in b.plane.live && b.plane.live[u].sitting.Some?
    case Opening(u, _) => u in b.plane.live && u in b.checked
    case Do(a) => !a.OnConnect? && VoicePlane.Enabled(b.plane, a)
  }

  ghost function Marked(checked: map<int, Unfinished>, a: VoicePlane.Action): map<int, Unfinished> {
    map u | u in checked && !Ends(a, u) :: if Reseats(a, u) then checked[u].(moved := true) else checked[u]
  }

  ghost function After(b: Board, m: Step): Board
    requires Possible(b, m)
  {
    match m
    case Check(u) => b.(checked := b.checked[u := Unfinished(b.plane.live[u].sitting.value, false)])
    case Opening(u, ok) => Board(ConnectTo(b.plane, u, b.checked[u].channel, ok), b.checked - {u})
    case Do(a) => Board(VoicePlane.Next(b.plane, a), Marked(b.checked, a))
  }

  ghost predicate StepAt(boards: seq<Board>, steps: seq<Step>, k: nat)
    requires k < |steps| == |boards| - 1
  {
    Possible(boards[k], steps[k]) && boards[k + 1] == After(boards[k], steps[k])
  }

  ghost predicate IsRun(boards: seq<Board>, steps: seq<Step>) {
    |boards| == |steps| + 1 && forall k: nat :: k < |steps| ==> StepAt(boards, steps, k)
  }

  ghost predicate Start(b: Board) {
    VoicePlane.Initial(b.plane) && b.checked == map[]
  }

  // --- when an opening finds its user gone ----------------------------------

  /** An opening that goes through finds its user where the check found them. */
  ghost predicate StillThere(b: Board, m: Step) {
    m.Opening? && m.ok && m.user in b.plane.live && m.user in b.checked ==>
      b.plane.live[m.user].sitting == Some(b.checked[m.user].channel)
  }

  /** Opening in a channel keeps sessions and rooms agreeing exactly when the user sits there then. */
  lemma OpeningAgrees(p: Plane, u: int, c: int, ok: bool)
    requires Inv(p) && u in p.live
    ensures Inv(ConnectTo(p, u, c, ok)) <==> (ok ==> p.live[u].sitting == Some(c))
  {
    CloseMediaKeeps(p, u);
    var p1 := CloseMedia(p, u);
    hide CloseMedia, VoiceRooms.Valid;
    if ok && p.live[u].sitting == Some(c) {
      OpenKeeps(p1, u, c);
    } else if ok {
      assert Open(p1, u, c).live[u].media == Some(c) && Open(p1, u, c).live[u].sitting != Some(c);
    }
  }

  lemma StepAgrees(b: Board, m: Step)
    requires Inv(b.plane) && Possible(b, m)
    ensures Inv(After(b, m).plane) <==> StillThere(b, m)
  {
    hide Inv, ConnectTo, VoicePlane.Next, VoicePlane.Enabled;
    match m
    case Check(_) =>
    case Opening(u, ok) => OpeningAgrees(b.plane, u, b.checked[u].channel, ok);
    case Do(a) => StepKeeps(b.plane, a);
  }

  /**
    Over every run, media open in a channel means being in its room and sitting
    in it at every moment so far if and only if every opening so far has found
    its user still in the channel that was checked.
   */
  lemma {:induction false} AgreementExactly(boards: seq<Board>, steps: seq<Step>, k: nat)
    requires IsRun(boards, steps) && Start(boards[0]) && k < |boards|
    ensures (forall j :: 0 <= j <= k ==> Inv(boards[j].plane)) <==>
      (forall j :: 0 <= j < k ==> StillThere(boards[j], steps[j]))
  {
    if k > 0 {
      AgreementExactly(boards, steps, k - 1);
      assert StepAt(boards, steps, k - 1);
      hide StillThere, Inv, After, Possible, IsRun, Start;
      if Inv(boards[k - 1].plane) {
        StepAgrees(boards[k - 1], steps[k - 1]);
      }
    }
  }

  // --- what a handler can look to -------------------------------------------

  lemma MoveSeats(p: Plane, u: int, to: Option<int>, v: int)
    requires Inv(p) && u in p.live && v in p.live && v != u
    ensures v in Move(p, u, to).live && Move(p, u, to).live[v].sitting == p.live[v].sitting
  {
    var from := p.live[u].sitting;
    if from != to && from.Some? {
      LeaveFacts(p, u, from.value);
      hide LeaveVoice, Inv;
    }
  }

  lemma CloseSeats(p: Plane, u: int, v: int)
    requires Inv(p) && u in p.live && v in p.live
    ensures v in CloseMedia(p, u).live && CloseMedia(p, u).live[v].sitting == p.live[v].sitting
  {
    if p.live[u].media.Some? {
      LeaveFacts(p, u, p.live[u].media.value);
      hide LeaveVoice, Inv;
    }
  }

  lemma {:induction false} EvictSeats(p: Plane, users: seq<int>, v: int)
    requires Inv(p) && v in p.live && v !in users
    ensures v in Evict(p, users).live && Evict(p, users).live[v].sitting == p.live[v].sitting
  {
    if users != [] {
      var p1, u := Evict(p, users[..|users| - 1]), users[|users| - 1];
      EvictSeats(p, users[..|users| - 1], v);
      EvictKeeps(p, users[..|users| - 1]);
      hide Inv, VoicePlane.Whole, Move;
      if u in p1.live { MoveSeats(p1, u, None, v); }
    }
  }

  lemma {:induction false} ResetSeatsSit(p: Plane, channels: seq<int>, v: int)
    requires Inv(p) && v in p.live
    ensures v in ResetRooms(p, channels).live && ResetRooms(p, channels).live[v].sitting == p.live[v].sitting
  {
    if channels != [] {
      var p1, c := ResetRooms(p, channels[..|channels| - 1]), channels[|channels| - 1];
      ResetSeatsSit(p, channels[..|channels| - 1], v);
      ResetRoomsKeeps(p, channels[..|channels| - 1]);
      hide Inv, VoicePlane.Whole, ResetRoom;
      ResetFacts(p1, c);
    }
  }

  /** The channels of a deletion emptied and forgotten, and everybody still where they sat. */
  lemma Emptied(p: Plane, channels: seq<int>, v: int) returns (p2: Plane)
    requires Inv(p) && v in p.live
    ensures var p1 := ResetRooms(p, channels); p2 == p1.(rooms := ForgetChannels(p1.rooms, channels))
    ensures Inv(p2) && v in p2.live && p2.live[v].sitting == p.live[v].sitting
  {
    var p1 := ResetRooms(p, channels);
    ResetSeatsSit(p, channels, v);
    ResetRoomsKeeps(p, channels);
    ForgetFacts(p1.rooms, channels);
    p2 := p1.(rooms := ForgetChannels(p1.rooms, channels));
    assert Inv(p2) by { hide ResetRooms, ForgetChannels; }
  }

  /** Nobody changes seats but by a handler that says so. */
  lemma SeatStays(p: Plane, a: VoicePlane.Action, v: int)
    requires Inv(p) && VoicePlane.Enabled(p, a) && v in p.live && !Reseats(a, v) && !Ends(a, v)
    ensures v in VoicePlane.Next(p, a).live && VoicePlane.Next(p, a).live[v].sitting == p.live[v].sitting
  {
    hide VoiceRooms.Valid;
    match a
    case OnMove(u, to) => MoveSeats(p, u, to, v);
    case OnFinish(u) => CloseSeats(p, u, v);
    case OnLeave(u) => CloseSeats(p, u, v);
    case OnRelayGone(u) => CloseSeats(p, u, v);
    case OnConnect(u, _) => CloseSeats(p, u, v);
    case OnEvict(users) => EvictSeats(p, users, v);
    case OnDeleteChannels(channels, users) =>
      var p2 := Emptied(p, channels, v);
      EvictSeats(p2, users, v);
    case OnConfigure(mode, channels) =>
      assert Inv(p.(mode := mode));
      ResetSeatsSit(p.(mode := mode), channels, v);
    case OnFinishDisplaced(i) => DisplacedSeats(p, i, v);
    case _ =>
  }

  lemma DisplacedSeats(p: Plane, i: nat, v: int)
    requires Inv(p) && i < |p.displaced| && v in p.live
    ensures v in FinishDisplaced(p, i).live && FinishDisplaced(p, i).live[v].sitting == p.live[v].sitting
  {
    var (u, s) := p.displaced[i];
    var p1 := p.(displaced := Collections.Without(p.displaced, i));
    assert Inv(p1);
    if u !in p.live && s.media.Some? {
      hide Departed, Inv, Hosted;
      DepartedFacts(p1, u, s, s.media.value);
    }
  }

  /**
    A check starts one afresh; a handler marks just those it moves or pulls out,
    and ends just those whose connection goes.
   */
  lemma MarkedExactly(b: Board, m: Step, u: int)
    requires Possible(b, m) && u in b.plane.live
    ensures var checked := After(b, m).checked;
      match m
      case Check(v) =>
        && v in checked && !checked[v].moved && b.plane.live[v].sitting == Some(checked[v].channel)
        && (u != v ==> (u in checked <==> u in b.checked) && (u in checked ==> checked[u] == b.checked[u]))
      case Opening(v, _) =>
        (u in checked <==> u in b.checked && u != v) && (u in checked ==> checked[u] == b.checked[u])
      case Do(a) =>
        && (u in checked <==> u in b.checked && a != OnSignIn(u) && a != OnFinish(u))
        && (u in checked ==>
              && checked[u].channel == b.checked[u].channel
              && (checked[u].moved <==>
                    || b.checked[u].moved || (a.OnMove? && a.user == u)
                    || ((a.OnEvict? || a.OnDeleteChannels?) && u in a.users)))
  {
    hide VoicePlane.Next, VoicePlane.Enabled, ConnectTo;
  }

  /** Whoever has not been reseated since the check still sits where it found them. */
  ghost predicate Unmoved(b: Board) {
    forall u :: u in b.checked && u in b.plane.live && !b.checked[u].moved ==>
      b.plane.live[u].sitting == Some(b.checked[u].channel)
  }

  lemma StepUnmoved(b: Board, m: Step)
    requires Inv(b.plane) && Unmoved(b) && Possible(b, m)
    requires forall u :: u in b.checked ==> u in b.plane.live
    ensures Unmoved(After(b, m)) && forall u :: u in After(b, m).checked ==> u in After(b, m).plane.live
  {
    var b' := After(b, m);
    match m
    case Check(_) =>
    case Opening(u, ok) =>
      forall v | v in b.plane.live { CloseSeats(b.plane, u, v); }
      hide CloseMedia, Inv, VoiceRooms.Attach;
    case Do(a) =>
      forall v | v in b'.checked
        ensures v in b'.plane.live
        ensures !b'.checked[v].moved ==> b'.plane.live[v].sitting == Some(b'.checked[v].channel)
      {
        hide VoicePlane.Next, VoicePlane.Enabled, Inv;
        if Reseats(a, v) { StaysIn(b.plane, a, v); } else { SeatStays(b.plane, a, v); }
      }
  }

  /** A reseated user stays connected. */
  lemma StaysIn(p: Plane, a: VoicePlane.Action, v: int)
    requires Inv(p) && VoicePlane.Enabled(p, a) && v in p.live && Reseats(a, v)
    ensures v in VoicePlane.Next(p, a).live
  {
    match a
    case OnMove(u, to) => MoveStays(p, u, to, v);
    case OnEvict(users) => EvictStays(p, users, v);
    case OnDeleteChannels(channels, users) =>
      var p2 := Emptied(p, channels, v);
      EvictStays(p2, users, v);
    case _ =>
  }

  lemma MoveStays(p: Plane, u: int, to: Option<int>, v: int)
    requires Inv(p) && u in p.live && v in p.live
    ensures v in Move(p, u, to).live
  {
    var from := p.live[u].sitting;
    if from != to && from.Some? {
      LeaveFacts(p, u, from.value);
      hide LeaveVoice, Inv;
    }
  }

  lemma {:induction false} EvictStays(p: Plane, users: seq<int>, v: int)
    requires Inv(p) && v in p.live
    ensures v in Evict(p, users).live
  {
    if users != [] {
      var p1, u := Evict(p, users[..|users| - 1]), users[|users| - 1];
      EvictStays(p, users[..|users| - 1], v);
      EvictKeeps(p, users[..|users| - 1]);
      hide Inv, VoicePlane.Whole, Move;
      if u in p1.live { MoveStays(p1, u, None, v); }
    }
  }

  lemma {:induction false} RunUnmoved(boards: seq<Board>, steps: seq<Step>, k: nat)
    requires IsRun(boards, steps) && Start(boards[0]) && k < |boards|
    requires forall j :: 0 <= j < k && steps[j].Opening? && steps[j].user in boards[j].checked ==>
      !boards[j].checked[steps[j].user].moved
    ensures Inv(boards[k].plane) && Unmoved(boards[k])
    ensures forall u :: u in boards[k].checked ==> u in boards[k].plane.live
  {
    if k > 0 {
      RunUnmoved(boards, steps, k - 1);
      assert StepAt(boards, steps, k - 1);
      assert StillThere(boards[k - 1], steps[k - 1]);
      hide Inv, Unmoved, After, Possible, IsRun, Start, StillThere;
      StepUnmoved(boards[k - 1], steps[k - 1]);
      StepAgrees(boards[k - 1], steps[k - 1]);
    }
  }

  /** So as long as nobody is reseated between a check and its opening, sessions and rooms agree at every moment. */
  lemma AgreementUnlessReseated(boards: seq<Board>, steps: seq<Step>, k: nat, u: int)
    requires IsRun(boards, steps) && Start(boards[0]) && k < |boards|
    requires forall j :: 0 <= j < k && steps[j].Opening? && steps[j].user in boards[j].checked ==>
      !boards[j].checked[steps[j].user].moved
    requires u in boards[k].plane.live && boards[k].plane.live[u].media.Some?
    ensures var p := boards[k].plane; var c := p.live[u].media.value;
      p.live[u].sitting == Some(c) && u in p.rooms.Room(c)
  {
    RunUnmoved(boards, steps, k);
    hide IsRun, Start, Unmoved;
  }

  // --- the run --------------------------------------------------------------

  /**
    A moderator moves somebody whose opening has been checked and not yet made:
    the move finds no media to close, and the opening goes on in the channel left.
   */
  lemma MoveOvertakesConnect(b: Board, u: int, c: int, d: int) returns (boards: seq<Board>, steps: seq<Step>)
    requires Start(b) && c != d
    ensures IsRun(boards, steps) && boards[0] == b && |steps| == 5
    ensures u in boards[5].plane.live && boards[5].checked == map[]
    ensures boards[5].plane.live[u].media == Some(c) && boards[5].plane.live[u].sitting == Some(d)
  {
    steps := [
      Do(OnSignIn(u)), Do(OnMove(u, Some(c))), Check(u), Do(OnMove(u, Some(d))), Opening(u, true)];
    var b1 := After(b, steps[0]);
    var b2 := After(b1, steps[1]);
    var b3 := After(b2, steps[2]);
    var b4 := After(b3, steps[3]);
    boards := [b, b1, b2, b3, b4, After(b4, steps[4])];
  }
}
