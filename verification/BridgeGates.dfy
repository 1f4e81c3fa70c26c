/** What puts a job in a queue of the bridge, and what never does. */
module BridgeGates {
  import opened Wrappers
  import opened Bridge
  import BridgeConvergence
  import BridgeRedelivery
  import Collections
  import OutboundText

  predicate CarriesOut(link: Link) {
    link.enabled && (link.direction == Both || link.direction == OnlyToDiscord)
  }

  predicate CarriesIn(link: Link) {
    link.enabled && (link.direction == Both || link.direction == OnlyToAural)
  }

  ghost predicate RoomFor(relay: Relay, l: int) {
    l in relay.queues ==> |relay.queues[l]| < 256
  }

  /** Somebody's own line, where its link carries it while the relay is up; an edit or deletion where edits cross. */
  ghost predicate GoesOut(relay: Relay, h: Handoff, l: int) {
    && h.m.ordinary && relay.up
    && (forall x :: x in relay.links && relay.links[x].source.Some? ==>
          h.m.webhook != Some(Relays(relay.links[x].source.value)))
    && l in relay.links && relay.links[l].channel == h.m.channel && CarriesOut(relay.links[l])
    && (h.HandPost? || relay.links[l].relayEdits) && RoomFor(relay, l)
  }

  function OutJob(link: Link, h: Handoff): Job {
    match h
    case HandPost(id, m) => ToDiscord(link, id, m.content)
    case HandEdit(id, m) => EditOnDiscord(link, id, m.content)
    case HandDelete(id, _) => DeleteOnDiscord(link, id)
  }

  ghost predicate NotOurs(relay: Relay, webhook: Option<int>) {
    forall x :: x in relay.links ==> webhook != Some(relay.links[x].webhook)
  }

  /** What a person wrote or changed on Discord in a linked channel, our webhooks' and the bot's own writing aside. */
  ghost predicate ComesIn(relay: Relay, discord: seq<Message<int>>, e: Event, l: int) {
    && l in relay.links && CarriesIn(relay.links[l]) && RoomFor(relay, l)
    && match e
       case Created(d, _, byBot) =>
         && d < |discord| && relay.links[l].discordChannel == discord[d].channel
         && discord[d].ordinary && NotOurs(relay, discord[d].webhook) && !(relay.up && byBot)
       case Edited(d, webhook, content, cards) =>
         && d < |discord| && relay.links[l].discordChannel == discord[d].channel
         && NotOurs(relay, webhook) && relay.links[l].relayEdits && (content != "" || cards)
       case Deleted(channel, _) => relay.links[l].discordChannel == channel && relay.links[l].relayEdits
  }

  function InJob(link: Link, e: Event): Job {
    match e
    case Created(d, content, _) => ToAural(link, d, content)
    case Edited(d, _, content, _) => EditOnAural(link, d, content)
    case Deleted(_, ids) => DeleteOnAural(link, ids)
  }

  /** Handing over queues the message on its channel's link exactly when it may go out, and queues nothing else. */
  lemma HandOverQueues(s: State, dir: OutboundText.Directory, i: nat, l: int)
    requires LinksFit(s.relay.links) && Enabled(s, HandOver(i))
    ensures Queue(Next(s, dir, HandOver(i)).relay.queues, l) ==
      Queue(s.relay.queues, l)
      + if GoesOut(s.relay, s.handing[i], l) then [OutJob(s.relay.links[l], s.handing[i])] else []
  {
    hide Collections.Without;
    var h, links := s.handing[i], s.relay.links;
    assert IsInbound(links, h.m.webhook) <==>
      exists x :: x in links && links[x].source.Some? && h.m.webhook == Some(Relays(links[x].source.value));
  }

  lemma CreatedQueues(relay: Relay, discord: seq<Message<int>>, d: nat, content: string, byBot: bool, l: int)
    requires LinksFit(relay.links)
    ensures var e := Created(d, content, byBot);
      Queue(OnEvent(relay, discord, e).queues, l) ==
      Queue(relay.queues, l) + if ComesIn(relay, discord, e, l) then [InJob(relay.links[l], e)] else []
  {}

  lemma ChangedQueues(relay: Relay, discord: seq<Message<int>>, e: Event, l: int)
    requires LinksFit(relay.links) && !e.Created?
    ensures Queue(OnEvent(relay, discord, e).queues, l) ==
      Queue(relay.queues, l) + if ComesIn(relay, discord, e, l) then [InJob(relay.links[l], e)] else []
  {}

  /** And hearing from Discord exactly when it may come in. */
  lemma DeliverQueues(s: State, dir: OutboundText.Directory, i: nat, l: int)
    requires LinksFit(s.relay.links) && Enabled(s, Deliver(i))
    ensures var e := s.remote.events[i];
      Queue(Next(s, dir, Deliver(i)).relay.queues, l) ==
      Queue(s.relay.queues, l)
      + if ComesIn(s.relay, s.remote.discord, e, l) then [InJob(s.relay.links[l], e)] else []
  {
    var e := s.remote.events[i];
    match e
    case Created(d, content, byBot) => CreatedQueues(s.relay, s.remote.discord, d, content, byBot, l);
    case _ => ChangedQueues(s.relay, s.remote.discord, e, l);
    hide Collections.Without, OnEvent, ComesIn;
  }

  /** What a step does to one link's queue. */
  ghost function QueueAfter(s: State, a: Action, l: int): seq<Job>
    requires Enabled(s, a)
  {
    var q := Queue(s.relay.queues, l);
    match a
    case HandOver(i) =>
      if GoesOut(s.relay, s.handing[i], l) then q + [OutJob(s.relay.links[l], s.handing[i])] else q
    case Deliver(i) =>
      var e := s.remote.events[i];
      if ComesIn(s.relay, s.remote.discord, e, l) then q + [InJob(s.relay.links[l], e)] else q
    case Work(m, _) => if m == l then q[1..] else q
    case _ => q
  }

  lemma StepQueues(s: State, dir: OutboundText.Directory, a: Action, l: int)
    requires LinksFit(s.relay.links) && Enabled(s, a)
    ensures Queue(Next(s, dir, a).relay.queues, l) == QueueAfter(s, a, l)
  {
    match a
    case HandOver(i) => HandOverQueues(s, dir, i, l); hide GoesOut, Next;
    case Deliver(i) => DeliverQueues(s, dir, i, l); hide ComesIn, Next;
    case Work(m, o) =>
      BridgeConvergence.RunRoutes(s.(relay := Popped(s.relay, m)), dir, s.relay.queues[m][0], o);
      hide RunJob;
    case _ => hide Collections.Without, Blank;
  }

  /**
    At every moment of every run a queue gets one job more exactly when something
    that may go out is handed over, or something that may come in is heard of,
    and otherwise only its worker changes it.
   */
  lemma QueuesExactly(states: seq<State>, dir: OutboundText.Directory, actions: seq<Action>, k: nat, l: int)
    requires IsRun(states, dir, actions) && Initial(states[0]) && k < |actions|
    ensures Enabled(states[k], actions[k])
    ensures Queue(states[k + 1].relay.queues, l) == QueueAfter(states[k], actions[k], l)
  {
    RunInv(states, dir, actions, k);
    assert StepAt(states, dir, actions, k);
    hide QueueAfter, Next, Enabled, IsRun, Initial, StoresFit, PairsFit, CarriersFit;
    StepQueues(states[k], dir, actions[k], l);
  }

  // --- a link that never carries --------------------------------------------

  /** Nothing waits that was not let through: a link's jobs go the ways it carried when they were queued. */
  ghost predicate LetThrough(q: seq<Job>) {
    forall i :: 0 <= i < |q| ==>
      match q[i]
      case ToDiscord(link, _, _) => CarriesOut(link)
      case EditOnDiscord(link, _, _) => CarriesOut(link) && link.relayEdits
      case DeleteOnDiscord(link, _) => CarriesOut(link) && link.relayEdits
      case ToAural(link, _, _) => CarriesIn(link)
      case EditOnAural(link, _, _) => CarriesIn(link) && link.relayEdits
      case DeleteOnAural(link, _) => CarriesIn(link) && link.relayEdits
  }

  lemma {:induction false} RunLetThrough(
      states: seq<State>, dir: OutboundText.Directory, actions: seq<Action>, k: nat, l: int)
    requires IsRun(states, dir, actions) && Initial(states[0]) && k < |states|
    ensures LetThrough(Queue(states[k].relay.queues, l))
  {
    if k > 0 {
      RunLetThrough(states, dir, actions, k - 1, l);
      QueuesExactly(states, dir, actions, k - 1, l);
      hide IsRun, NotOurs, RoomFor, Enabled, Initial;
    }
  }

  ghost predicate NoneBring(q: seq<Job>) {
    forall i :: 0 <= i < |q| ==> !q[i].ToDiscord?
  }

  /** No copy of anything from here stands in a channel on Discord. */
  ghost predicate NoCopyThere(discord: seq<Message<int>>, channel: int) {
    forall d :: 0 <= d < |discord| && discord[d].copyOf.Some? ==> discord[d].channel != channel
  }

  lemma JobLeavesNoCopy(s: State, dir: OutboundText.Directory, m: int, job: Job, o: Outcome, l: int)
    requires LinksFit(s.relay.links) && l in s.relay.links && AtHome(job, m, s.relay.links)
    requires job.ToDiscord? ==> m != l
    requires NoCopyThere(s.remote.discord, s.relay.links[l].discordChannel)
    ensures NoCopyThere(RunJob(s, dir, job, o).remote.discord, s.relay.links[l].discordChannel)
  {
    hide Blank, OutboundText.Rendered, ApplyEdit, ApplyDelete;
  }

  lemma StepLeavesNoCopy(s: State, dir: OutboundText.Directory, a: Action, l: int)
    requires Inv(s) && Enabled(s, a) && l in s.relay.links && NoneBring(Queue(s.relay.queues, l))
    requires NoCopyThere(s.remote.discord, s.relay.links[l].discordChannel)
    ensures NoCopyThere(Next(s, dir, a).remote.discord, s.relay.links[l].discordChannel)
  {
    match a
    case Work(m, o) =>
      var p := s.(relay := Popped(s.relay, m));
      assert AtHome(s.relay.queues[m][0], m, s.relay.links);
      hide Inv, RunJob;
      JobLeavesNoCopy(p, dir, m, s.relay.queues[m][0], o, l);
    case _ => hide Inv, Blank, Collections.Without, OnEvent, HandedOver;
  }

  lemma StepStaysSilent(s: State, dir: OutboundText.Directory, a: Action, l: int)
    requires Inv(s) && Enabled(s, a) && l in s.relay.links && !CarriesOut(s.relay.links[l])
    requires NoneBring(Queue(s.relay.queues, l))
    requires NoCopyThere(s.remote.discord, s.relay.links[l].discordChannel)
    ensures var s' := Next(s, dir, a);
      && NoneBring(Queue(s'.relay.queues, l)) && l in s'.relay.links
      && NoCopyThere(s'.remote.discord, s'.relay.links[l].discordChannel)
  {
    StepQueues(s, dir, a, l);
    StepLeavesNoCopy(s, dir, a, l);
    BridgeRedelivery.StepChannels(s, dir, BridgeRedelivery.Once(a));
    assert NoneBring(QueueAfter(s, a, l)) by { hide Next, NotOurs, RoomFor, Inv, NoCopyThere; }
    hide Inv, Next, QueueAfter, NoneBring, NoCopyThere, CarriesOut;
  }

  /** A link that at no moment carried toward Discord has left nothing in its channel there. */
  lemma {:induction false} ClosedLinkStaysSilent(
      states: seq<State>, dir: OutboundText.Directory, actions: seq<Action>, k: nat, l: int)
    requires IsRun(states, dir, actions) && Initial(states[0]) && k < |states|
    requires forall j :: 0 <= j <= k ==> l in states[j].relay.links && !CarriesOut(states[j].relay.links[l])
    ensures NoneBring(Queue(states[k].relay.queues, l))
    ensures NoCopyThere(states[k].remote.discord, states[k].relay.links[l].discordChannel)
  {
    if k > 0 {
      ClosedLinkStaysSilent(states, dir, actions, k - 1, l);
      RunInv(states, dir, actions, k - 1);
      assert StepAt(states, dir, actions, k - 1);
      hide Inv, Next, Enabled, NoneBring, NoCopyThere, CarriesOut, Initial, IsRun;
      StepStaysSilent(states[k - 1], dir, actions[k - 1], l);
    }
  }
}
