/**
  What the bridge does when the gateway delivers an event again: of one message on
  Discord there come to be at most as many copies here as deliveries of its news.
 */
module BridgeRedelivery {
  import opened Wrappers
  import opened Bridge
  import BridgeConvergence
  import Collections
  import OutboundText

  /** A step of the bridge, or an event delivered that is to be delivered again. */
  datatype Move = Once(action: Action) | Again(at: nat)

  ghost predicate Possible(s: State, m: Move) {
    match m
    case Once(a) => Enabled(s, a)
    case Again(i) => i < |s.remote.events|
  }

  ghost function After(s: State, dir: OutboundText.Directory, m: Move): State
    requires Possible(s, m)
  {
    match m
    case Once(a) => Next(s, dir, a)
    case Again(i) => s.(relay := OnEvent(s.relay, s.remote.discord, s.remote.events[i]))
  }

  ghost predicate StepAt(states: seq<State>, dir: OutboundText.Directory, moves: seq<Move>, k: nat)
    requires k < |moves| == |states| - 1
  {
    Possible(states[k], moves[k]) && states[k + 1] == After(states[k], dir, moves[k])
  }

  ghost predicate IsRun(states: seq<State>, dir: OutboundText.Directory, moves: seq<Move>) {
    |states| == |moves| + 1 && forall k: nat :: k < |moves| ==> StepAt(states, dir, moves, k)
  }

  // --- counting -------------------------------------------------------------

  function Copies(aural: seq<Message<Row>>, d: nat): nat {
    if aural == [] then 0
    else Copies(aural[..|aural| - 1], d) + if aural[|aural| - 1].copyOf == Some(d) then 1 else 0
  }

  predicate Brings(job: Job, d: nat) {
    job.ToAural? && job.discordId == d
  }

  function Waiting(q: seq<Job>, d: nat): nat {
    if q == [] then 0 else (if Brings(q[0], d) then 1 else 0) + Waiting(q[1..], d)
  }

  /** Whether a step delivers the news of a message. */
  predicate Tells(e: Event, d: nat) {
    e.Created? && e.id == d
  }

  ghost function News(s: State, m: Move, d: nat): nat {
    match m
    case Once(Deliver(i)) => if i < |s.remote.events| && Tells(s.remote.events[i], d) then 1 else 0
    case Again(i) => if i < |s.remote.events| && Tells(s.remote.events[i], d) then 1 else 0
    case _ => 0
  }

  ghost function Deliveries(states: seq<State>, moves: seq<Move>, k: nat, d: nat): nat
    requires k < |states| && k <= |moves|
  {
    if k == 0 then 0 else Deliveries(states, moves, k - 1, d) + News(states[k - 1], moves[k - 1], d)
  }

  lemma {:induction false} CopiesAlike(aural: seq<Message<Row>>, aural': seq<Message<Row>>, d: nat)
    requires |aural'| == |aural| && forall a :: 0 <= a < |aural| ==> aural'[a].copyOf == aural[a].copyOf
    ensures Copies(aural', d) == Copies(aural, d)
  {
    if aural != [] {
      CopiesAlike(aural[..|aural| - 1], aural'[..|aural| - 1], d);
    }
  }

  lemma CopiesPush(aural: seq<Message<Row>>, m: Message<Row>, d: nat)
    ensures Copies(aural + [m], d) == Copies(aural, d) + if m.copyOf == Some(d) then 1 else 0
  {
    assert (aural + [m])[..|aural|] == aural;
  }

  lemma {:induction false} WaitingPush(q: seq<Job>, job: Job, d: nat)
    ensures Waiting(q + [job], d) == Waiting(q, d) + if Brings(job, d) then 1 else 0
  {
    if q == [] {
      assert q + [job] == [job] && [job][1..] == [];
    } else {
      assert (q + [job])[1..] == q[1..] + [job];
      WaitingPush(q[1..], job, d);
    }
  }

  // --- one step -------------------------------------------------------------

  ghost predicate OnlyLink(links: map<int, Link>, l: int, discordChannel: int) {
    forall m :: m in links && links[m].discordChannel == discordChannel ==> m == l
  }

  ghost predicate OnlyQueue(queues: map<int, seq<Job>>, l: int, d: nat) {
    forall m, i :: m in queues && 0 <= i < |queues[m]| && Brings(queues[m][i], d) ==> m == l
  }

  /** The only link by which a message can come here is the one of its channel on Discord. */
  ghost predicate OnlyBy(s: State, l: int, d: nat) {
    && LinksFit(s.relay.links)
    && (d < |s.remote.discord| ==> OnlyLink(s.relay.links, l, s.remote.discord[d].channel))
    && OnlyQueue(s.relay.queues, l, d)
  }

  ghost function Count(s: State, l: int, d: nat): nat {
    Copies(s.db.aural, d) + Waiting(Queue(s.relay.queues, l), d)
  }

  lemma EnqueueCounts(relay: Relay, m: int, job: Job, l: int, d: nat)
    ensures var q, q' := Queue(relay.queues, l), Queue(Enqueue(relay, m, job).queues, l);
      Waiting(q', d) <= Waiting(q, d) + if Brings(job, d) && m == l then 1 else 0
  {
    WaitingPush(Queue(relay.queues, m), job, d);
  }

  lemma EnqueueOnly(relay: Relay, m: int, job: Job, l: int, d: nat)
    requires OnlyQueue(relay.queues, l, d) && (Brings(job, d) ==> m == l)
    ensures OnlyQueue(Enqueue(relay, m, job).queues, l, d)
  {}

  /** What an event puts in the queues, its message's own among them at most once. */
  lemma EventCounts(s: State, e: Event, l: int, d: nat)
    requires OnlyBy(s, l, d)
    ensures var relay' := OnEvent(s.relay, s.remote.discord, e);
      && relay'.links == s.relay.links && OnlyQueue(relay'.queues, l, d)
      && Waiting(Queue(relay'.queues, l), d) <= Waiting(Queue(s.relay.queues, l), d) + if Tells(e, d) then 1 else 0
  {
    var links, discord := s.relay.links, s.remote.discord;
    hide IsOwn, Waiting, OnlyQueue, Enqueue;
    match e
    case Created(n, content, _) =>
      if n < |discord| && LinkForDiscord(links, discord[n].channel).Some? {
        var link := LinkForDiscord(links, discord[n].channel).value;
        var job := ToAural(link, n, content);
        EnqueueLinks(s.relay, link.id, job);
        EnqueueCounts(s.relay, link.id, job, l, d);
        EnqueueOnly(s.relay, link.id, job, l, d);
      }
    case Edited(n, _, content, _) =>
      if n < |discord| && LinkForDiscord(links, discord[n].channel).Some? {
        var link := LinkForDiscord(links, discord[n].channel).value;
        var job := EditOnAural(link, n, content);
        EnqueueLinks(s.relay, link.id, job);
        EnqueueCounts(s.relay, link.id, job, l, d);
        EnqueueOnly(s.relay, link.id, job, l, d);
      }
    case Deleted(channel, ids) =>
      if LinkForDiscord(links, channel).Some? {
        var link := LinkForDiscord(links, channel).value;
        var job := DeleteOnAural(link, ids);
        EnqueueLinks(s.relay, link.id, job);
        EnqueueCounts(s.relay, link.id, job, l, d);
        EnqueueOnly(s.relay, link.id, job, l, d);
      }
  }

  lemma EnqueueLinks(relay: Relay, m: int, job: Job)
    ensures Enqueue(relay, m, job).links == relay.links
  {}

  lemma HandOverCounts(relay: Relay, h: Handoff, l: int, d: nat)
    requires OnlyQueue(relay.queues, l, d)
    ensures var relay' := HandedOver(relay, h);
      && relay'.links == relay.links && OnlyQueue(relay'.queues, l, d)
      && Waiting(Queue(relay'.queues, l), d) <= Waiting(Queue(relay.queues, l), d)
  {
    HandedOverMeans(relay, h);
    var link := OutboundLink(relay, h.m);
    hide HandedOver, OutboundLink, Waiting, OnlyQueue, Enqueue;
    if link.Some? {
      var job := JobFor(link.value, h);
      EnqueueLinks(relay, link.value.id, job);
      EnqueueCounts(relay, link.value.id, job, l, d);
      EnqueueOnly(relay, link.value.id, job, l, d);
    }
  }

  // --- running a job --------------------------------------------------------

  /** Messages here keep what they are copies of, and none is added. */
  ghost predicate SameCopies(aural: seq<Message<Row>>, aural': seq<Message<Row>>) {
    |aural'| == |aural| && forall a :: 0 <= a < |aural| ==> aural'[a].copyOf == aural[a].copyOf
  }

  lemma {:induction false} DeleteSame(db: Db, link: Link, ids: seq<nat>, outcomes: seq<Deletion>)
    ensures SameCopies(db.aural, ApplyDelete(db, link, ids, outcomes).aural)
    decreases |ids|
  {
    hide CopyToChange;
    if ids != [] && outcomes != [] {
      var db1 := DeleteOne(db, link, ids[0], outcomes[0]);
      assert SameCopies(db.aural, db1.aural);
      DeleteSame(db1, link, ids[1..], outcomes[1..]);
    }
  }

  /** A job adds a copy of a message only by bringing it, and then one. */
  lemma JobCopies(s: State, dir: OutboundText.Directory, job: Job, o: Outcome, d: nat)
    ensures var s' := RunJob(s, dir, job, o);
      Copies(s'.db.aural, d) <= Copies(s.db.aural, d) + if Brings(job, d) then 1 else 0
  {
    var s' := RunJob(s, dir, job, o);
    hide Blank, OutboundText.Rendered, ApplyDelete, CopyToChange, Copies;
    match job
    case ToAural(link, n, _) =>
      if |s'.db.aural| == |s.db.aural| {
        CopiesAlike(s.db.aural, s'.db.aural, d);
      } else {
        CopiesPush(s.db.aural, s'.db.aural[|s.db.aural|], d);
      }
    case DeleteOnAural(link, ids) =>
      DeleteSame(s.db, link, ids, o.deletions);
      CopiesAlike(s.db.aural, s'.db.aural, d);
    case _ => CopiesAlike(s.db.aural, s'.db.aural, d);
  }

  /** Links keep their channels, and messages on Discord theirs. */
  ghost predicate ChannelsKept(s: State, s': State) {
    && SameRoutes(s.relay.links, s'.relay.links) && |s.remote.discord| <= |s'.remote.discord|
    && forall n :: 0 <= n < |s.remote.discord| ==> s'.remote.discord[n].channel == s.remote.discord[n].channel
  }

  lemma JobChannels(s: State, dir: OutboundText.Directory, job: Job, o: Outcome)
    ensures var s' := RunJob(s, dir, job, o); ChannelsKept(s, s') && s'.relay.queues == s.relay.queues
  {
    BridgeConvergence.RunRoutes(s, dir, job, o);
    if job.ToAural? { BridgeConvergence.WriteAdds(s, job.link, job.discordId, o); }
    hide Blank, OutboundText.Rendered, ApplyEdit, ApplyDelete, WriteCopy;
  }

  lemma WorkCounts(s: State, dir: OutboundText.Directory, m: int, o: Outcome, l: int, d: nat)
    requires OnlyBy(s, l, d) && Enabled(s, Work(m, o))
    ensures var s' := Next(s, dir, Work(m, o));
      OnlyQueue(s'.relay.queues, l, d) && Count(s', l, d) <= Count(s, l, d)
  {
    var p, job := s.(relay := Popped(s.relay, m)), s.relay.queues[m][0];
    JobCopies(p, dir, job, o, d);
    JobChannels(p, dir, job, o);
    hide RunJob, Copies;
    assert Brings(job, d) ==> m == l;
    assert forall i :: 0 <= i < |p.relay.queues[m]| ==> p.relay.queues[m][i] == s.relay.queues[m][i + 1];
    assert Waiting(s.relay.queues[m], d) == (if Brings(job, d) then 1 else 0) + Waiting(p.relay.queues[m], d);
    hide Waiting;
    assert m != l ==> Queue(p.relay.queues, l) == Queue(s.relay.queues, l);
  }

  /** No step makes more of a message, waiting and copied, than the news of it that it delivers. */
  lemma StepCounts(s: State, dir: OutboundText.Directory, m: Move, l: int, d: nat)
    requires OnlyBy(s, l, d) && Possible(s, m)
    ensures var s' := After(s, dir, m);
      OnlyQueue(s'.relay.queues, l, d) && Count(s', l, d) <= Count(s, l, d) + News(s, m, d)
  {
    hide Waiting, Copies, OnlyQueue;
    match m
    case Again(i) => EventCounts(s, s.remote.events[i], l, d); hide OnEvent;
    case Once(a) =>
      var s' := Next(s, dir, a);
      match a
      case Deliver(i) => EventCounts(s, s.remote.events[i], l, d); hide OnEvent, Collections.Without;
      case HandOver(i) => HandOverCounts(s.relay, s.handing[i], l, d); hide HandedOver, Collections.Without;
      case Work(n, o) => WorkCounts(s, dir, n, o, l, d); hide Next;
      case Post(_, _, _, _) => CopiesPush(s.db.aural, s'.db.aural[|s.db.aural|], d);
      case EditHere(_, _) => CopiesAlike(s.db.aural, s'.db.aural, d); hide Blank;
      case DeleteHere(_) => CopiesAlike(s.db.aural, s'.db.aural, d);
      case _ => hide Collections.Without;
  }

  lemma StepChannels(s: State, dir: OutboundText.Directory, m: Move)
    requires LinksFit(s.relay.links) && Possible(s, m)
    ensures ChannelsKept(s, After(s, dir, m)) && LinksFit(After(s, dir, m).relay.links)
  {
    match m
    case Again(i) => BridgeConvergence.OnEventRoutes(s.relay, s.remote.discord, s.remote.events[i]); hide OnEvent;
    case Once(a) =>
      match a
      case Deliver(i) =>
        BridgeConvergence.OnEventRoutes(s.relay, s.remote.discord, s.remote.events[i]);
        hide OnEvent, Collections.Without;
      case HandOver(i) => HandedOverMeans(s.relay, s.handing[i]); hide HandedOver, OutboundLink, Collections.Without;
      case Work(n, o) =>
        JobChannels(s.(relay := Popped(s.relay, n)), dir, s.relay.queues[n][0], o);
        hide RunJob;
      case _ => hide Collections.Without, Blank;
  }

  /** The channels being kept, whatever is the only link after a step was before it. */
  lemma OnlyBefore(s: State, s': State, l: int, d: nat)
    requires ChannelsKept(s, s') && d < |s.remote.discord|
    requires OnlyLink(s'.relay.links, l, s'.remote.discord[d].channel)
    ensures OnlyLink(s.relay.links, l, s.remote.discord[d].channel)
  {}

  lemma {:induction false} RunLinks(
      states: seq<State>, dir: OutboundText.Directory, moves: seq<Move>, k: nat)
    requires IsRun(states, dir, moves) && Initial(states[0]) && k < |states|
    ensures LinksFit(states[k].relay.links)
  {
    if k > 0 {
      RunLinks(states, dir, moves, k - 1);
      assert StepAt(states, dir, moves, k - 1);
      hide LinksFit, After, Possible, Initial, IsRun, ChannelsKept;
      StepChannels(states[k - 1], dir, moves[k - 1]);
    }
  }

  lemma {:induction false} RunCounts(
      states: seq<State>, dir: OutboundText.Directory, moves: seq<Move>, k: nat, l: int, d: nat)
    requires IsRun(states, dir, moves) && Initial(states[0]) && k < |states|
    requires d < |states[k].remote.discord| ==>
      OnlyLink(states[k].relay.links, l, states[k].remote.discord[d].channel)
    ensures OnlyBy(states[k], l, d) && Count(states[k], l, d) <= Deliveries(states, moves, k, d)
  {
    RunLinks(states, dir, moves, k);
    if k > 0 {
      var s, s' := states[k - 1], states[k];
      RunLinks(states, dir, moves, k - 1);
      assert StepAt(states, dir, moves, k - 1);
      StepChannels(s, dir, moves[k - 1]);
      hide LinksFit, After, Possible, Initial, OnlyLink, IsRun, News;
      if d < |s.remote.discord| { OnlyBefore(s, s', l, d); }
      RunCounts(states, dir, moves, k - 1, l, d);
      hide Count, OnlyQueue;
      StepCounts(s, dir, moves[k - 1], l, d);
    }
  }

  /**
    Over every run, however often the gateway delivers an event again, the copies
    here of a message on Discord number at most the deliveries of its news.
   */
  lemma CopiesAtMostDeliveries(
      states: seq<State>, dir: OutboundText.Directory, moves: seq<Move>, k: nat, d: nat)
    requires IsRun(states, dir, moves) && Initial(states[0]) && k < |states|
    ensures Copies(states[k].db.aural, d) <= Deliveries(states, moves, k, d)
  {
    var s := states[k];
    RunLinks(states, dir, moves, k);
    var l :=
      if d < |s.remote.discord| && LinkForDiscord(s.relay.links, s.remote.discord[d].channel).Some? then
        LinkForDiscord(s.relay.links, s.remote.discord[d].channel).value.id
      else 0;
    hide IsRun, Initial;
    RunCounts(states, dir, moves, k, l, d);
    hide Waiting, Copies;
  }
}
